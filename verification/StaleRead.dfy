/**
 * One run in which a read is overtaken: two conditional writes, a read of
 * coordinate 1 that has its cache answer, a compaction to 2, and then the
 * read's rows.
 */
module StaleRead {
  import opened Wrappers
  import opened Json
  import opened Events
  import opened Reads
  import opened SharedLog

  function Exec(c: Config, s: State, actions: seq<Action>): State
    decreases |actions|
  {
    if actions == [] then s else Exec(c, Step(c, s, actions[0]), actions[1..])
  }

  lemma {:induction false} RunIsExec(c: Config, before: seq<Action>, after: seq<Action>)
    ensures Run(c, before + after) == Exec(c, Run(c, before), after)
    decreases |after|
  {
    hide Step;
    if after == [] {
      assert before + after == before;
    } else {
      assert (before + [after[0]])[..|before|] == before;
      RunIsExec(c, before + [after[0]], after[1..]);
      assert before + after == before + [after[0]] + after[1..];
    }
  }

  lemma Exec3(c: Config, s: State, x: Action, y: Action, z: Action)
    ensures Exec(c, s, [x, y, z]) == Step(c, Step(c, Step(c, s, x), y), z)
    ensures Exec(c, s, [x, y]) == Step(c, Step(c, s, x), y) && Exec(c, s, [x]) == Step(c, s, x)
  {
    hide Step;
    assert [x, y, z][1..] == [y, z] && [y, z][1..] == [z] && [z][1..] == [] && [x,
           y][1..] == [y] && [y][1..] == [] && [x][1..] == [];
    var s1 := Step(c, s, x);
    var s2 := Step(c, s1, y);
    assert Exec(c, s, [x]) == Exec(c, s1, []);
    assert Exec(c, s1, [y]) == Exec(c, s2, []);
    assert Exec(c, s, [x, y]) == Exec(c, s1, [y]);
    assert Exec(c, s2, [z]) == Exec(c, Step(c, s2, z), []);
    assert Exec(c, s1, [y, z]) == Exec(c, s2, [z]);
    assert Exec(c, s, [x, y, z]) == Exec(c, s1, [y, z]);
  }

  function Next1(id: TaskId): Action { Go(id, Works, [], 0) }

  /** The first three reads of `state_at` on an uncompacted log with an empty cache. */
  lemma ThreeReads(c: Config, s: State, id: TaskId, at: nat)
    requires id in s.tasks && s.tasks[id].pc == AskHead(at) && s.cache == map[] && Boundary(s.log) == None
    requires Head(s.log).Some? && 1 <= at <= Head(s.log).value
    ensures Step(c, Step(c, Step(c, s, Next1(id)), Next1(id)), Next1(id)) ==
            Moved(s, id, s.tasks[id].(pc := AskRows(at, 1, Null)))
  {
    var task := s.tasks[id];
    var s1 := Step(c, s, Next1(id));
    assert s1 == Moved(s, id, task.(pc := AskBoundary(at)));
    var s2 := Step(c, s1, Next1(id));
    assert s2 == Moved(s, id, task.(pc := AskCache(at)));
    assert Base(s.cache, at) == (1, Null) by { EmptyCache(at); }
    assert Step(c, s2, Next1(id)) == Moved(s, id, task.(pc := AskRows(at, 1, Null)));
  }

  lemma EmptyCache(at: nat)
    ensures Nearest(map[], at) == None
  {
  }

  const FIRST := Event(1, "edit", [Add([], Number(1))], Null, 0)
  const SECOND := Event(2, "edit", [Add([], Number(2))], Null, 0)

  lemma TwoEvents()
    ensures Truth([FIRST, SECOND], 0) == Ok(Null) && Truth([FIRST, SECOND], 1) == Ok(Number(1))
            && Truth([FIRST, SECOND], 2) == Ok(Number(2))
    ensures Truth([FIRST], 1) == Ok(Number(1))
  {
    TruthStep([FIRST, SECOND], 0);
    TruthStep([FIRST, SECOND], 1);
    TruthPrefix([FIRST], [SECOND], 1);
    assert [FIRST] + [SECOND] == [FIRST, SECOND];
    assert FIRST.patch[1..] == [] && SECOND.patch[1..] == [];
  }

  const WRITE0 := Write(IfHead(0), NewEvent("edit", FIRST.patch, Null), None)
  const WRITE1 := Write(IfHead(1), NewEvent("edit", SECOND.patch, Null), None)

  function Thrice(id: TaskId): seq<Action> { [Next1(id), Next1(id), Next1(id)] }

  const TWO_WRITES := [Spawn(1, WRITE0), Next1(1), Next1(1)] + ([Spawn(2, WRITE1), Next1(2)] + Thrice(2)) + [Next1(2), Next1(2)]
  const READ_BEGINS := [Spawn(3, Get(1)), Next1(3)] + Thrice(3)
  const COMPACTION := [Spawn(4, Compact(2)), Next1(4)] + Thrice(4) + Thrice(4)

  /** An ungated conditional write, having read the state before it, appends on a step that works. */
  lemma AppendWorks(c: Config, s: State, id: TaskId, rec: NewEvent, state: Json)
    requires !c.gated && id in s.tasks && s.tasks[id].job == Write(IfHead(HeadOr0(s.log)), rec, None)
    requires s.tasks[id].pc.Answered? && s.tasks[id].pc.answer == Ok(state)
    ensures var n := HeadOr0(s.log) + 1;
            var event := Event(n, rec.kind, rec.patch, rec.meta, 0);
            Step(c, s, Next1(id)) == s.(history := s.history + [event], log := s.log + [event],
                                        tasks := s.tasks[id := s.tasks[id].(pc := Stored(n, Apply(state, rec.patch)))])
  {
  }

  lemma AfterFirstWrite(c: Config)
    requires !c.oneStore && !c.gated && c.stride == 0
    ensures Run(c, [Spawn(1, WRITE0), Next1(1), Next1(1)])
            == Initial.(history := [FIRST], log := [FIRST], tasks := map[1 := Task(WRITE0, Stored(1, Apply(Null,
                FIRST.patch)))])
  {
    hide Exec, Apply;
    var writes := [Spawn(1, WRITE0), Next1(1), Next1(1)];
    RunIsExec(c, [], writes);
    assert [] + writes == writes;
    Exec3(c, Initial, Spawn(1, WRITE0), Next1(1), Next1(1));
    var s := Step(c, Initial, Spawn(1, WRITE0));
    assert s == Initial.(tasks := map[1 := Task(WRITE0, Idle)]);
    var t := Step(c, s, Next1(1));
    assert t == Initial.(tasks := map[1 := Task(WRITE0, Answered(0, Ok(Null)))]);
    AppendWorks(c, t, 1, WRITE0.rec, Null);
  }

  lemma AfterTwoWrites(c: Config)
    requires !c.oneStore && !c.gated && c.stride == 0
    ensures var s := Run(c, TWO_WRITES);
            && s.history == [FIRST, SECOND] && s.log == s.history && s.boundary == 0 && s.cache == map[]
            && s.lock == None && s.compactor == None && s.tasks.Keys == {1, 2}
  {
    hide Exec, Apply;
    TwoEvents();
    AfterFirstWrite(c);
    var writes := [Spawn(1, WRITE0), Next1(1), Next1(1)];
    Asks(c, writes, 2, WRITE1, 1);
    var u := Run(c, writes + ([Spawn(2, WRITE1), Next1(2)] + Thrice(2)));
    RowsGive([FIRST], 1);
    RunIsExec(c, writes + ([Spawn(2, WRITE1), Next1(2)] + Thrice(2)), [Next1(2), Next1(2)]);
    Exec3(c, u, Next1(2), Next1(2), Next1(2));
    var v := Step(c, u, Next1(2));
    assert v == u.(tasks := u.tasks[2 := Task(WRITE1, Answered(1, Ok(Number(1))))]);
    AppendWorks(c, v, 2, WRITE1.rec, Number(1));
  }

  lemma Begins(c: Config, s: State, id: TaskId, job: Job, at: nat)
    requires !c.oneStore && id !in s.tasks && at > 0
    requires job == Get(at) || (job == Compact(at) && s.compactor == None) || (job.Write? && job.restores == None &&
             job.mode == IfHead(at))
    ensures Step(c, Step(c, s, Spawn(id, job)), Next1(id))
            == s.(tasks := s.tasks[id := Task(job, AskHead(at))], compactor := if job.Compact? then Some(id) else s.compactor)
  {
    var t := Step(c, s, Spawn(id, job));
    assert t == s.(tasks := s.tasks[id := Task(job, Idle)]);
    assert s.tasks[id := Task(job, Idle)][id := Task(job, AskHead(at))] == s.tasks[id := Task(job, AskHead(at))];
  }

  /** A new task whose job reads `at` first gets as far as its rows. */
  lemma Asks(c: Config, before: seq<Action>, id: TaskId, job: Job, at: nat)
    requires !c.oneStore && (job == Get(at) || (job == Compact(at) && Run(c, before).compactor == None)
                             || (job.Write? && job.restores == None && job.mode == IfHead(at)))
    requires var s := Run(c, before);
             && id !in s.tasks && s.cache == map[] && Boundary(s.log) == None && Head(s.log).Some? &&
                  1 <= at <= Head(s.log).value
    ensures var s := Run(c, before);
            Run(c, before + ([Spawn(id, job), Next1(id)] + Thrice(id)))
            == s.(tasks := s.tasks[id := Task(job, AskRows(at, 1, Null))],
                compactor := if job.Compact? then Some(id) else s.compactor)
  {
    hide Exec, Step, Run, Boundary, Head;
    var s := Run(c, before);
    RunIsExec(c, before, [Spawn(id, job), Next1(id)]);
    Exec3(c, s, Spawn(id, job), Next1(id), Next1(id));
    var t := Run(c, before + [Spawn(id, job), Next1(id)]);
    Begins(c, s, id, job, at);
    ThreeReads(c, t, id, at);
    Exec3(c, t, Next1(id), Next1(id), Next1(id));
    RunIsExec(c, before + [Spawn(id, job), Next1(id)], Thrice(id));
    assert before + [Spawn(id, job), Next1(id)] + Thrice(id) == before + ([Spawn(id, job), Next1(id)] + Thrice(id));
  }

  lemma RowsGive(history: seq<Event>, at: nat)
    requires Numbered(history, 1) && 1 <= at <= |history|
    ensures Replay(Null, UpTo(Read(history, 1, at), at)) == Truth(history, at)
  {
    assert Truth(history, 0) == Ok(Null);
    ReadTail(history, history, 0, Null, 1, at);
  }

  lemma AfterReadBegins(c: Config)
    requires !c.oneStore && !c.gated && c.stride == 0
    ensures var s := Run(c, TWO_WRITES + READ_BEGINS);
            && s.history == [FIRST, SECOND] && s.log == s.history && s.boundary == 0 && s.cache == map[]
            && s.lock == None && s.compactor == None && s.tasks.Keys == {1, 2, 3}
            && s.tasks[3] == Task(Get(1), AskRows(1, 1, Null))
  {
    AfterTwoWrites(c);
    Asks(c, TWO_WRITES, 3, Get(1), 1);
  }

  lemma AfterCompaction(c: Config)
    requires !c.oneStore && !c.gated && c.stride == 0
    ensures var s := Run(c, TWO_WRITES + READ_BEGINS + COMPACTION);
            && s.history == [FIRST, SECOND] && s.boundary == 2 && s.log == [Snapshot(2, Number(2), 0)]
            && 3 in s.tasks && s.tasks[3] == Task(Get(1), AskRows(1, 1, Null))
  {
    hide Exec, Apply, Step, Run, Truth, Snapshot;
    TwoEvents();
    AfterReadBegins(c);
    var before := TWO_WRITES + READ_BEGINS;
    var s := Run(c, before);
    Asks(c, before, 4, Compact(2), 2);
    var u := Run(c, before + ([Spawn(4, Compact(2)), Next1(4)] + Thrice(4)));
    RunIsExec(c, before + ([Spawn(4, Compact(2)), Next1(4)] + Thrice(4)), Thrice(4));
    Exec3(c, u, Next1(4), Next1(4), Next1(4));
    assert before + ([Spawn(4, Compact(2)), Next1(4)] + Thrice(4)) + Thrice(4) == before + COMPACTION;
    CompactionEnds(c, u, 4);
    OtherKey(Run(c, before + COMPACTION).tasks, u.tasks, 4, 3);
  }

  lemma CompactionEnds(c: Config, u: State, id: TaskId)
    requires id in u.tasks && u.tasks[id] == Task(Compact(2), AskRows(2, 1, Null)) && u.log == [FIRST, SECOND]
    ensures var t := Step(c, Step(c, Step(c, u, Next1(id)), Next1(id)), Next1(id));
            && t.history == u.history && t.boundary == 2 && t.log == [Snapshot(2, Number(2), 0)]
            && t.tasks - {id} == u.tasks - {id}
  {
    hide Apply;
    TwoEvents();
    RowsGive([FIRST, SECOND], 2);
    AnchorTime(u.log, u.log, 0, 2);
    FromNumbered(u.log, 1, 3);
    var v := Step(c, u, Next1(id));
    assert v == u.(tasks := u.tasks[id := Task(Compact(2), Answered(2, Ok(Number(2))))]);
    var w := Step(c, v, Next1(id));
    assert w == u.(tasks := u.tasks[id := Task(Compact(2), Swap(2, Number(2), 0))]);
  }

  /**
   * It happens: a read of coordinate 1 passed by a compaction to 2 answers `Null`,
   * which is no error and not the state there.
   */
  lemma StaleReadHappens(c: Config)
    requires !c.oneStore && !c.gated && c.stride == 0
    ensures var s := Run(c, TWO_WRITES + READ_BEGINS + COMPACTION + [Next1(3)]);
            && 3 in s.tasks && s.tasks[3] == Task(Get(1), Answered(1, Ok(Null))) && s.history == [FIRST, SECOND]
            && Truth(s.history, 1) == Ok(Number(1)) && s.boundary == 2
  {
    hide Exec;
    TwoEvents();
    AfterCompaction(c);
    var before := TWO_WRITES + READ_BEGINS + COMPACTION;
    var s := Run(c, before);
    OvertakenReadIsStale(c, before, 3);
    RunIsExec(c, before, [Next1(3)]);
    Exec3(c, s, Next1(3), Next1(3), Next1(3));
  }
}
