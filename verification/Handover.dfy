/**
 * What a sink is given while others work: one catch-up of one stream, step by
 * step, among the writers, readers, reverts, compactions, evictions and crashes
 * of `SharedLog`. Only the states handed over matter here; what was delivered
 * is the matter of `Delivery`.
 */
module Handover {
  import opened Wrappers
  import opened Json
  import opened Events
  import opened Reads
  import opened SharedLog

  /** `batch` holds the rows read and not yet handed over; `read` is the bootstrap's `state_at` of the first of them. */
  datatype Feed =
    | Off
    | On(head: nat, cursor: nat, running: Option<Json>, batch: seq<Event>, read: Option<Task>,
         // the rest only records what happened
         overtaken: bool,     // a compaction passed the bootstrap before its rows were read
         tainted: bool)       // the running state comes from such a bootstrap

  datatype Given = Given(seqNo: nat, state: Json, tainted: bool)

  datatype World = World(s: State, f: Feed, given: seq<Given>, overtakes: nat)

  datatype Move =
    | Shared(a: Action)
    | Begin(checkpoint: nat)
    | Feeds(works: bool)      // a backend read, or a sink call and its checkpoint

  const START := World(Initial, Off, [], 0)

  /** The first row of the batch goes to the sink. After a failure the drive of this stream is over. */
  function Hand(w: World, state: Json, tainted: bool, works: bool): World
    requires w.f.On? && w.f.batch != []
  {
    var seqNo := w.f.batch[0].seqNo;
    w.(given := w.given + [Given(seqNo, state, tainted)],
       f := if !works then Off
            else w.f.(cursor := seqNo, running := Some(state), batch := w.f.batch[1..], read := None, overtaken := false,
                tainted := tainted))
  }

  /** The row is the history's own event, not a snapshot put in its place. */
  predicate Own(s: State, row: Event) {
    1 <= row.seqNo <= |s.history| && row == s.history[row.seqNo - 1]
  }

  function FeedStep(w: World, works: bool): World
    requires w.f.On?
  {
    var f := w.f;
    if f.batch == [] then
      var rows := Read(w.s.log, f.cursor + 1, CATCH_UP_BATCH);
      w.(f := if !works || f.cursor >= f.head || rows == [] then Off else f.(batch := rows))
    else
      match f.running
      case Some(state) =>
        (match Apply(state, f.batch[0].patch)
         case None => w.(f := Off)
         case Some(next) => Hand(w, next, f.tainted && Own(w.s, f.batch[0]), works))
      case None => BootStep(w, works)
  }

  function BootStep(w: World, works: bool): World
    requires w.f.On? && w.f.batch != []
  {
    var seqNo := w.f.batch[0].seqNo;
    match w.f.read
    case None => w.(f := w.f.(read := Some(Task(Get(seqNo), AskHead(seqNo)))))
    case Some(task) =>
      if Reading(task.pc) then
        var pc := AfterRead(w.s, task);
        var passed := task.pc.AskRows? && task.pc.at < w.s.boundary;
        if !works || pc.Failed? then w.(f := Off)
        else w.(f := w.f.(read := Some(task.(pc := pc)), overtaken := passed),
            overtakes := if passed then w.overtakes + 1 else w.overtakes)
      else if task.pc.Answered? && task.pc.answer.Ok? then Hand(w, task.pc.answer.value, w.f.overtaken, works)
      else w.(f := Off)
  }

  function Moves(c: Config, w: World, move: Move): World {
    match move
    case Shared(a) => w.(s := Step(c, w.s, a), f := if a.Crash? then Off else w.f)
    case Begin(checkpoint) =>
      if w.f.On? || Head(w.s.log).None? then w
      else w.(f := On(Head(w.s.log).value, checkpoint, None, [], None, false, false))
    case Feeds(works) => if w.f.On? then FeedStep(w, works) else w
  }

  function RunMoves(c: Config, moves: seq<Move>): World {
    if moves == [] then START
    else Moves(c, RunMoves(c, moves[..|moves| - 1]), moves[|moves| - 1])
  }

  // ---- the invariant ------------------------------------------------------------------

  ghost predicate TrueAt(history: seq<Event>, seqNo: nat, state: Json) {
    1 <= seqNo <= |history| && Truth(history, seqNo) == Ok(state)
  }

  /** A row that takes any state to the true one. */
  ghost predicate Snap(history: seq<Event>, row: Event) {
    1 <= row.seqNo <= |history| && Truth(history, row.seqNo).Ok? && row.patch == [Add([], Truth(history, row.seqNo).value)]
  }

  /** Consecutive events of the history, the first of which may be a snapshot instead. */
  ghost predicate BatchOk(s: State, batch: seq<Event>) {
    forall i :: 0 <= i < |batch| ==>
      && 1 <= batch[i].seqNo <= |s.history| && batch[i].seqNo == batch[0].seqNo + i
      && (Own(s, batch[i]) || (i == 0 && Snap(s.history, batch[0])))
  }

  /** The next row continues the running state, or replaces it. */
  ghost predicate RunningOk(s: State, f: Feed)
    requires f.On?
  {
    f.running.Some? ==>
      && f.read == None && 1 <= f.cursor <= |s.history| && (!f.tainted ==> TrueAt(s.history, f.cursor, f.running.value))
      && (f.batch != [] ==> f.batch[0].seqNo == f.cursor + 1 || Snap(s.history, f.batch[0]))
  }

  ghost predicate ReadOk(s: State, f: Feed)
    requires f.On?
  {
    f.read.Some? ==>
      var task := f.read.value;
      && f.batch != [] && task.job == Get(f.batch[0].seqNo) && PcOk(s, task)
      && (task.pc.AskHead? || task.pc.AskBoundary? || task.pc.AskCache? || task.pc.AskRows? || task.pc.Answered?)
      && (task.pc.Answered? && !f.overtaken ==> Truth(s.history, task.pc.at) == task.pc.answer)
  }

  ghost predicate FeedOk(s: State, f: Feed) {
    f.On? ==> BatchOk(s, f.batch) && RunningOk(s, f) && ReadOk(s, f)
  }

  ghost predicate GivenOk(s: State, given: seq<Given>) {
    forall i :: 0 <= i < |given| ==> 1 <= given[i].seqNo <= |s.history| && (!given[i].tainted ==>
        TrueAt(s.history, given[i].seqNo, given[i].state))
  }

  ghost predicate Untainted(w: World) {
    w.overtakes == 0 ==> (forall i :: 0 <= i < |w.given| ==> !w.given[i].tainted) && (w.f.On? ==>
        !w.f.tainted && !w.f.overtaken)
  }

  ghost predicate WorldOk(c: Config, w: World) {
    Inv(c, w.s) && FeedOk(w.s, w.f) && GivenOk(w.s, w.given) && Untainted(w)
  }

  // ---- every move keeps it ------------------------------------------------------------

  /** A longer history and a higher boundary disturb nothing. */
  lemma FeedGrows(s: State, t: State, f: Feed)
    requires FeedOk(s, f) && s.history <= t.history && s.boundary <= t.boundary
    ensures FeedOk(t, f)
  {
    hide Truth;
    TruthGrows(s.history, t.history);
  }

  lemma GivenGrows(s: State, t: State, given: seq<Given>)
    requires GivenOk(s, given) && s.history <= t.history
    ensures GivenOk(t, given)
  {
    hide Truth;
    TruthGrows(s.history, t.history);
  }

  /** What a batch read holds, whatever was compacted before. */
  lemma RowsAreOk(s: State, cursor: nat)
    requires Holds(s.log, s.history, s.boundary)
    ensures var rows := Read(s.log, cursor + 1, CATCH_UP_BATCH);
            BatchOk(s, rows) && (rows != [] ==> rows[0].seqNo == cursor + 1 || Snap(s.history, rows[0]))
  {
    hide Holds, Own, Snap;
    var rows := Read(s.log, cursor + 1, CATCH_UP_BATCH);
    forall i | 0 <= i < |rows|
      ensures rows[i].seqNo == rows[0].seqNo + i && 1 <= rows[i].seqNo <= |s.history| && (Own(s,
              rows[i]) || (i == 0 && Snap(s.history, rows[0])))
    {
      RowIsOk(s, cursor, 0);
      RowIsOk(s, cursor, i);
    }
    if rows != [] { RowIsOk(s, cursor, 0); }
  }

  lemma RowIsOk(s: State, cursor: nat, i: nat)
    requires Holds(s.log, s.history, s.boundary) && i < |Read(s.log, cursor + 1, CATCH_UP_BATCH)|
    ensures var row, first := Read(s.log, cursor + 1, CATCH_UP_BATCH)[i], if s.boundary == 0 then 1 else s.boundary;
            && row.seqNo == (if cursor + 1 <= first then first else cursor + 1) + i && 1 <= row.seqNo <= |s.history|
            && (Own(s, row) || (i == 0 && Snap(s.history, row))) && (i == 0 ==> row.seqNo == cursor + 1 || Snap(s.history, row))
  {
    hide Truth, Replay, Holds, From;
    var first := if s.boundary == 0 then 1 else s.boundary;
    HoldsNumbered(s.log, s.history, s.boundary);
    FromNumbered(s.log, first, cursor + 1);
    var skip := Monus(cursor + 1, first);
    assert Read(s.log, cursor + 1, CATCH_UP_BATCH)[i] == s.log[skip + i];
    LogRow(s.log, s.history, s.boundary, first, skip + i);
    if s.boundary > 0 && skip + i == 0 { FirstRow(s.log, s.history, s.boundary); }
  }

  /** The first row applied to the running state gives the true state, if that was true or the row is a snapshot. */
  lemma FoldIsTrue(s: State, f: Feed, next: Json)
    requires f.On? && f.batch != [] && BatchOk(s, f.batch) && RunningOk(s, f) && f.running.Some?
    requires Apply(f.running.value, f.batch[0].patch) == Some(next)
    ensures !(f.tainted && Own(s, f.batch[0])) ==> TrueAt(s.history, f.batch[0].seqNo, next)
  {
    hide Replay;
    var row := f.batch[0];
    if Snap(s.history, row) {
      assert row.patch[1..] == [];
    } else {
      TruthStep(s.history, f.cursor);
    }
  }

  lemma HandKeeps(c: Config, w: World, state: Json, tainted: bool, works: bool)
    requires WorldOk(c, w) && w.f.On? && w.f.batch != [] && (!tainted ==> TrueAt(w.s.history, w.f.batch[0].seqNo, state))
    requires w.overtakes == 0 ==> !tainted
    ensures WorldOk(c, Hand(w, state, tainted, works))
  {
    hide Inv, Truth, Snap, TrueAt, Own;
    var after := Hand(w, state, tainted, works);
    if works {
      assert after.f.batch == w.f.batch[1..];
      forall i | 0 <= i < |after.f.batch| ensures after.f.batch[i] == w.f.batch[i + 1] {}
    }
  }

  /** One of the bootstrap's four reads, against whatever the log and the cache are by then. */
  lemma BootReads(c: Config, s: State, f: Feed)
    requires Inv(c, s) && f.On? && FeedOk(s, f) && f.read.Some? && Reading(f.read.value.pc)
    ensures var task := f.read.value;
            var pc := AfterRead(s, task);
            !pc.Failed? ==> ReadOk(s, f.(read := Some(task.(pc := pc)),
                overtaken := task.pc.AskRows? && task.pc.at < s.boundary))
  {
    hide Truth, Replay, Holds, CacheOk, AfterRead, Read;
    var task := f.read.value;
    assert TaskOk(c, s, 0, task);
    AfterReadOk(c, s, 0, task);
    AnswerIsTrue(s, task);
    SameJobSeq(s, task);
  }

  lemma SameJobSeq(s: State, task: Task)
    requires Reading(task.pc) && !task.pc.NeedHead?
    ensures var pc := AfterRead(s, task);
            pc.Failed? || pc.AskBoundary? || pc.AskCache? || pc.AskRows? || pc.Answered?
  {
  }

  lemma AnswerIsTrue(s: State, task: Task)
    requires Holds(s.log, s.history, s.boundary) && CacheOk(s.cache, s.history) && PcOk(s,
             task) && Reading(task.pc) && task.job.Get?
    ensures var pc := AfterRead(s, task);
            pc.Answered? && !task.pc.NeedHead? && !(task.pc.AskRows? && task.pc.at < s.boundary) ==>
              pc.at <= |s.history| && Truth(s.history, pc.at) == pc.answer
  {
    hide Holds, CacheOk, Truth, Replay, UpTo, Read;
    if task.pc.AskCache? {
      BaseIsTrue(s.cache, s.history, task.pc.at);
    } else if task.pc.AskRows? {
      RowsAnswer(s.log, s.history, s.boundary, task.pc.base, task.pc.from, task.pc.at);
    }
  }

  lemma FeedStepKeeps(c: Config, w: World, works: bool)
    requires WorldOk(c, w) && w.f.On?
    ensures WorldOk(c, FeedStep(w, works))
  {
    hide Inv, Truth, BatchOk, Hand, Holds, Read, AfterRead, Snap, Own, PcOk, TrueAt;
    var f := w.f;
    if f.batch == [] {
      assert Holds(w.s.log, w.s.history, w.s.boundary) by { InvHolds(c, w.s); }
      RowsAreOk(w.s, f.cursor);
    } else if f.running.Some? {
      match Apply(f.running.value, f.batch[0].patch) {
        case None =>
        case Some(next) =>
          FoldIsTrue(w.s, f, next);
          HandKeeps(c, w, next, f.tainted && Own(w.s, f.batch[0]), works);
      }
    } else {
      BootStepKeeps(c, w, works);
    }
  }

  lemma InvHolds(c: Config, s: State)
    requires Inv(c, s)
    ensures Holds(s.log, s.history, s.boundary)
  {
  }

  lemma BootStepKeeps(c: Config, w: World, works: bool)
    requires WorldOk(c, w) && w.f.On? && w.f.batch != [] && w.f.running.None?
    ensures WorldOk(c, BootStep(w, works))
  {
    hide Inv, Truth, BatchOk, Hand, AfterRead;
    match w.f.read {
      case None =>
      case Some(task) =>
        if Reading(task.pc) {
          BootReads(c, w.s, w.f);
        } else if task.pc.Answered? && task.pc.answer.Ok? {
          FirstInHistory(w.s, w.f.batch);
          HandKeeps(c, w, task.pc.answer.value, w.f.overtaken, works);
        }
    }
  }

  lemma FirstInHistory(s: State, batch: seq<Event>)
    requires BatchOk(s, batch) && batch != []
    ensures 1 <= batch[0].seqNo <= |s.history|
  {
  }

  lemma MoveKeeps(c: Config, w: World, move: Move)
    requires WorldOk(c, w)
    ensures WorldOk(c, Moves(c, w, move))
  {
    hide Inv, Step, FeedStep, FeedOk, GivenOk, Truth;
    match move {
      case Shared(a) =>
        StepInv(c, w.s, a);
        StepGrows(c, w.s, a);
        if !a.Crash? {
          FeedGrows(w.s, Step(c, w.s, a), w.f);
        } else {
          OffIsOk(Step(c, w.s, a));
        }
        GivenGrows(w.s, Step(c, w.s, a), w.given);
      case Begin(checkpoint) =>
        if !w.f.On? && Head(w.s.log).Some? { FreshIsOk(w.s, Head(w.s.log).value, checkpoint); }
      case Feeds(works) => if w.f.On? { FeedStepKeeps(c, w, works); }
    }
  }

  lemma OffIsOk(s: State)
    ensures FeedOk(s, Off)
  {
  }

  lemma FreshIsOk(s: State, head: nat, checkpoint: nat)
    ensures FeedOk(s, On(head, checkpoint, None, [], None, false, false))
  {
  }

  lemma {:induction false} RunOk(c: Config, moves: seq<Move>)
    ensures WorldOk(c, RunMoves(c, moves))
    decreases |moves|
  {
    if moves == [] {
      RunInv(c, []);
      assert Run(c, []) == Initial;
    } else {
      RunOk(c, moves[..|moves| - 1]);
      MoveKeeps(c, RunMoves(c, moves[..|moves| - 1]), moves[|moves| - 1]);
    }
  }

  // ---- what it means ------------------------------------------------------------------

  /**
   * Every state handed to a sink is the replay of the history to its
   * coordinate, whatever is appended or compacted while the drive is under
   * way: a snapshot met on the way overwrites the running state. The one
   * exception is a running state that came from a bootstrap read overtaken by
   * a compaction.
   */
  lemma HandoversAreTrue(c: Config, moves: seq<Move>, i: nat)
    requires i < |RunMoves(c, moves).given| && !RunMoves(c, moves).given[i].tainted
    ensures var w := RunMoves(c, moves);
            1 <= w.given[i].seqNo <= |w.s.history| && Truth(w.s.history, w.given[i].seqNo) == Ok(w.given[i].state)
  {
    RunOk(c, moves);
  }

  /** In a run in which no compaction overtakes a bootstrap, all of them are. */
  lemma AllHandoversAreTrue(c: Config, moves: seq<Move>)
    requires RunMoves(c, moves).overtakes == 0
    ensures var w := RunMoves(c, moves);
            forall i :: 0 <= i < |w.given| ==>
              1 <= w.given[i].seqNo <= |w.s.history| && Truth(w.s.history, w.given[i].seqNo) == Ok(w.given[i].state)
  {
    RunOk(c, moves);
  }

  /**
   * And the state a writer has ready for its own live dispatch is the true one at its
   * coordinate, for as long as it holds it.
   */
  lemma LiveHandoverIsTrue(c: Config, actions: seq<Action>, id: TaskId)
    requires id in Run(c, actions).tasks && Run(c, actions).tasks[id].pc.Stored? && Run(c, actions).tasks[id].pc.next.Some?
    ensures var s := Run(c, actions);
            var Stored(at, next) := s.tasks[id].pc;
            1 <= at <= |s.history| && Truth(s.history, at) == Ok(next.value)
  {
    RunInv(c, actions);
    assert TaskOk(c, Run(c, actions), id, Run(c, actions).tasks[id]);
  }
}
