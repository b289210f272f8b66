/**
 * What a catch-up of `Handover` gets done: left alone in any reachable state,
 * on a history that replays, it hands over every coordinate past its
 * checkpoint, each once and in order, with the true state.
 */
module HandoverEnds {
  import opened Wrappers
  import opened Json
  import opened Events
  import opened Reads
  import opened SharedLog
  import Progress
  import opened Handover

  /** `n` steps of the catch-up, all of which work. */
  function Fed(c: Config, w: World, n: nat): World {
    if n == 0 then w else Moves(c, Fed(c, w, n - 1), Feeds(true))
  }

  lemma {:induction false} FedAdd(c: Config, w: World, m: nat, n: nat)
    ensures Fed(c, Fed(c, w, m), n) == Fed(c, w, m + n)
    decreases n
  {
    hide Moves;
    if n > 0 {
      FedAdd(c, w, m, n - 1);
    }
  }

  function Feedings(n: nat): seq<Move> {
    if n == 0 then [] else Feedings(n - 1) + [Feeds(true)]
  }

  lemma {:induction false} FedIsRun(c: Config, before: seq<Move>, n: nat)
    ensures RunMoves(c, before + Feedings(n)) == Fed(c, RunMoves(c, before), n)
    decreases n
  {
    hide Moves;
    if n == 0 {
      assert before + [] == before;
    } else {
      FedIsRun(c, before, n - 1);
      var all := before + Feedings(n);
      assert all[..|all| - 1] == before + Feedings(n - 1);
    }
  }

  /**
   * A backend read that fails and a call the sink refuses end the catch-up of the
   * stream: nothing further is handed over. Only the step that sets the bootstrap
   * going calls nobody.
   */
  lemma FeedStops(c: Config, moves: seq<Move>)
    requires RunMoves(c, moves).f.On?
    ensures var w := RunMoves(c, moves);
            var u := Moves(c, w, Feeds(false));
            && u.s == w.s && w.given <= u.given && |u.given| <= |w.given| + 1
            && (u.f == Off || (w.f.batch != [] && w.f.running == None && w.f.read == None && u.given == w.given))
            && (w.f.batch != [] && |u.given| > |w.given| ==> u.given[|w.given|].seqNo == w.f.batch[0].seqNo)
  {
    hide RunMoves, AfterRead;
  }

  ghost predicate Replays(history: seq<Event>) {
    forall n :: 0 <= n <= |history| ==> Truth(history, n).Ok?
  }

  /** The coordinate of the next row: past the cursor, and not below the boundary. */
  function NextRow(w: World): nat
    requires w.f.On?
  {
    if w.f.cursor + 1 <= w.s.boundary then w.s.boundary else w.f.cursor + 1
  }

  /** A catch-up that nothing has disturbed, between two rows. */
  ghost predicate Steady(c: Config, w: World) {
    && WorldOk(c, w) && Replays(w.s.history) && w.f.On? && w.f.head == |w.s.history| && w.f.read == None
    && !w.f.tainted && !w.f.overtaken && w.s.boundary <= |w.s.history|
    && (w.f.batch != [] ==> w.f.batch[0].seqNo == NextRow(w))
  }

  /** One more row is handed over. */
  ghost predicate OneGiven(w: World, u: World)
    requires w.f.On? && w.f.batch != []
  {
    var n := w.f.batch[0].seqNo;
    && u.s == w.s && u.overtakes == w.overtakes && 1 <= n <= |w.s.history| && Truth(w.s.history, n).Ok?
    && u.given == w.given + [Given(n, Truth(w.s.history, n).value, false)]
    && u.f == On(w.f.head, n, Some(Truth(w.s.history, n).value), w.f.batch[1..], None, false, false)
  }

  /** With a running state: one step. */
  lemma RowFolds(c: Config, w: World)
    requires Steady(c, w) && w.f.batch != [] && w.f.running.Some?
    ensures OneGiven(w, Fed(c, w, 1))
  {
    hide Inv, Replay;
    var row, running := w.f.batch[0], w.f.running.value;
    assert Fed(c, w, 0) == w;
    assert Truth(w.s.history, row.seqNo).Ok?;
    if Snap(w.s.history, row) {
      assert row.patch[1..] == [] && Apply(running, row.patch) == Some(Truth(w.s.history, row.seqNo).value);
    } else {
      TruthStep(w.s.history, w.f.cursor);
      assert Own(w.s, row) && TrueAt(w.s.history, w.f.cursor, running);
      assert Apply(running, row.patch).Some?;
    }
    FoldIsTrue(w.s, w.f, Apply(running, row.patch).value);
  }

  /** The bootstrap's reads, all of them. */
  lemma {:induction false} ReadsFed(c: Config, w: World) returns (n: nat)
    requires w.f.On? && w.f.batch != [] && w.f.running.None? && w.f.read.Some? && Progress.Left(w.f.read.value.pc) > 0
    requires var pc := w.f.read.value.pc; (pc.AskRows? ==> w.s.boundary <= pc.at)
    requires w.s.boundary <= w.f.batch[0].seqNo && ReadsAt(w.f.read.value.pc, w.f.batch[0].seqNo)
    requires Progress.AfterReads(w.s, w.f.read.value).Answered? && !w.f.overtaken
    ensures Fed(c, w, n) == w.(f := w.f.(read := Some(w.f.read.value.(pc := Progress.AfterReads(w.s, w.f.read.value)))))
    decreases Progress.Left(w.f.read.value.pc)
  {
    hide AfterRead;
    var task := w.f.read.value;
    var pc := AfterRead(w.s, task);
    ReadsOn(w.s, task, w.f.batch[0].seqNo);
    assert Fed(c, w, 0) == w;
    var u := w.(f := w.f.(read := Some(task.(pc := pc))));
    assert Fed(c, w, 1) == u;
    n := 1;
    if Progress.Left(pc) > 0 {
      var m := ReadsFed(c, u);
      FedAdd(c, w, 1, m);
      n := 1 + m;
    }
  }

  predicate ReadsAt(pc: Pc, at: nat) {
    match pc
    case AskHead(n) => n == at case AskBoundary(n) => n == at case AskCache(n) => n == at case AskRows(n, _, _) => n == at
    case _ => false
  }

  lemma ReadsOn(s: State, task: Task, at: nat)
    requires ReadsAt(task.pc, at) && Progress.AfterReads(s, task).Answered?
    ensures var pc := AfterRead(s, task);
            && Reading(task.pc) && !pc.Failed? && Progress.Left(pc) < Progress.Left(task.pc)
            && (Progress.Left(pc) > 0 ==>
                  ReadsAt(pc, at) && Progress.AfterReads(s, task.(pc := pc)) == Progress.AfterReads(s, task))
            && (Progress.Left(pc) == 0 ==> pc == Progress.AfterReads(s, task))
  {
    hide Replay, Read, UpTo, Base;
  }

  /** Without a running state: the bootstrap, and then the row. */
  lemma RowBoots(c: Config, w: World) returns (n: nat)
    requires Steady(c, w) && w.f.batch != [] && w.f.running.None?
    ensures OneGiven(w, Fed(c, w, n))
  {
    hide Inv, Replay, Truth, StateAt, Answer, AfterRead, Progress.AfterReads, Moves, Fed;
    var at := w.f.batch[0].seqNo;
    var task := Task(Get(at), AskHead(at));
    FirstInHistory(w.s, w.f.batch);
    Progress.InvAnswers(c, w.s, at);
    ReadHere(c, w.s, at);
    Progress.FourReads(w.s, task, at);
    BootBegins(c, w);
    var u := w.(f := w.f.(read := Some(task)));
    var m := ReadsFed(c, u);
    FedAdd(c, w, 1, m);
    n := 1 + m + 1;
    BootHands(c, w, Fed(c, w, 1 + m), Truth(w.s.history, at).value);
    FedMore(c, w, 1 + m);
  }

  lemma FedMore(c: Config, w: World, n: nat)
    ensures Fed(c, w, n + 1) == Moves(c, Fed(c, w, n), Feeds(true))
  {
  }

  lemma BootBegins(c: Config, w: World)
    requires w.f.On? && w.f.batch != [] && w.f.running.None? && w.f.read.None?
    ensures Fed(c, w, 1) == w.(f := w.f.(read := Some(Task(Get(w.f.batch[0].seqNo), AskHead(w.f.batch[0].seqNo)))))
  {
    assert Fed(c, w, 0) == w;
  }

  lemma BootHands(c: Config, w: World, v: World, state: Json)
    requires w.f.On? && w.f.batch != [] && w.f.running.None? && !w.f.overtaken && !w.f.tainted
    requires var at := w.f.batch[0].seqNo;
             v == w.(f := w.f.(read := Some(Task(Get(at), Answered(at, Ok(state))))))
    ensures Moves(c, v, Feeds(true)) ==
            w.(given := w.given + [Given(w.f.batch[0].seqNo, state, false)],
               f := On(w.f.head, w.f.batch[0].seqNo, Some(state), w.f.batch[1..], None, false, false))
  {
  }

  lemma ReadHere(c: Config, s: State, at: nat)
    requires Inv(c, s) && Replays(s.history) && 1 <= at <= |s.history| && s.boundary <= at
    ensures Answer(s.log, s.history, at) == Truth(s.history, at)
  {
    hide Replay;
    HoldsNumbered(s.log, s.history, s.boundary);
  }

  /** One row, with or without a running state, and the catch-up is as steady as before. */
  lemma OneRow(c: Config, w: World) returns (n: nat)
    requires Steady(c, w) && w.f.batch != []
    ensures OneGiven(w, Fed(c, w, n)) && Steady(c, Fed(c, w, n))
  {
    hide Inv, Truth;
    if w.f.running.Some? {
      RowFolds(c, w);
      n := 1;
    } else {
      n := RowBoots(c, w);
    }
    FedOk(c, w, n);
    if |w.f.batch| > 1 { BatchGoesOn(w.s, w.f.batch); }
  }

  lemma BatchGoesOn(s: State, batch: seq<Event>)
    requires BatchOk(s, batch) && |batch| > 1
    ensures batch[1].seqNo == batch[0].seqNo + 1
  {
  }

  lemma {:induction false} FedOk(c: Config, w: World, n: nat)
    requires WorldOk(c, w)
    ensures WorldOk(c, Fed(c, w, n))
    decreases n
  {
    hide WorldOk, Moves;
    if n > 0 {
      FedOk(c, w, n - 1);
      MoveKeeps(c, Fed(c, w, n - 1), Feeds(true));
    }
  }

  /** The next batch, or the end. */
  lemma NextBatch(c: Config, w: World)
    requires Steady(c, w) && w.f.batch == []
    ensures var u := Fed(c, w, 1);
            && u.s == w.s && u.given == w.given && u.overtakes == w.overtakes
            && if w.f.cursor >= |w.s.history| then u.f == Off
               else Steady(c, u) && u.f.On? && u.f.batch != [] && u.f.cursor == w.f.cursor && NextRow(u) == NextRow(w)
  {
    hide Inv, Truth, Read;
    assert Fed(c, w, 0) == w;
    FedOk(c, w, 1);
    if w.f.cursor < |w.s.history| {
      RowsAreThere(c, w.s, w.f.cursor);
      RowIsOk(w.s, w.f.cursor, 0) by { InvHolds(c, w.s); }
    }
  }

  lemma RowsAreThere(c: Config, s: State, cursor: nat)
    requires Inv(c, s) && cursor < |s.history|
    ensures Read(s.log, cursor + 1, CATCH_UP_BATCH) != []
  {
    hide Replay;
    HoldsNumbered(s.log, s.history, s.boundary);
    FromNumbered(s.log, if s.boundary == 0 then 1 else s.boundary, cursor + 1);
  }

  /** Every coordinate from `from` on has been handed over since, in order, with its true state. */
  ghost predicate AllGiven(history: seq<Event>, given: seq<Given>, since: nat, from: nat) {
    && Replays(history) && |given| == since + (if from <= |history| then |history| + 1 - from else 0)
    && forall i :: since <= i < |given| && from + i - since <= |history| ==>
         given[i] == Given(from + i - since, Truth(history, from + i - since).value, false)
  }

  /** The rest of the drive. */
  lemma {:induction false} DriveEnds(c: Config, w: World) returns (n: nat)
    requires Steady(c, w)
    ensures var u := Fed(c, w, n);
            && u.s == w.s && u.f == Off && w.given <= u.given && u.overtakes == w.overtakes
            && (NextRow(w) <= |w.s.history| || w.f.cursor >= |w.s.history|)
            && AllGiven(w.s.history, u.given, |w.given|, if w.f.cursor >= |w.s.history| then |w.s.history| + 1 else NextRow(w))
    decreases if w.f.cursor >= |w.s.history| then 0 else |w.s.history| - w.f.cursor, |w.f.batch| == 0
  {
    hide Inv, Truth, WorldOk, Moves;
    if w.f.batch == [] {
      NextBatch(c, w);
      n := 1;
      if w.f.cursor < |w.s.history| {
        var m := DriveEnds(c, Fed(c, w, 1));
        FedAdd(c, w, 1, m);
        n := 1 + m;
      }
    } else {
      var k := OneRow(c, w);
      var u := Fed(c, w, k);
      var m := DriveEnds(c, u);
      FedAdd(c, w, k, m);
      n := k + m;
      var v := Fed(c, w, n);
      assert v.given[|w.given|] == u.given[|w.given|];
    }
  }

  /** Where the first row past a checkpoint is: past the head if there is none. */
  function Earliest(s: State, checkpoint: nat): nat {
    if checkpoint >= |s.history| then |s.history| + 1
    else if checkpoint + 1 <= s.boundary then s.boundary else checkpoint + 1
  }

  /** The catch-up is over, and has given every coordinate past its checkpoint that the log still has a row for. */
  ghost predicate FeedOver(w: World, u: World, checkpoint: nat) {
    && u.s == w.s && u.f == Off && w.given <= u.given && u.overtakes == w.overtakes
    && AllGiven(w.s.history, u.given, |w.given|, Earliest(w.s, checkpoint))
  }

  /**
   * A catch-up begun in any reachable state whose history replays, and left alone
   * with calls that work: it hands over every coordinate past its checkpoint that
   * the log still has a row for, each once, in order, with its true state.
   */
  lemma FeedEnds(c: Config, moves: seq<Move>, checkpoint: nat)
    requires var w := RunMoves(c, moves); w.f.Off? && w.s.history != [] && Replays(w.s.history)
    ensures exists n :: FeedOver(RunMoves(c, moves), RunMoves(c, moves + [Begin(checkpoint)] + Feedings(n)), checkpoint)
  {
    hide Fed, RunMoves, AllGiven, Feedings, Replays, Steady;
    var w, before := RunMoves(c, moves), moves + [Begin(checkpoint)];
    FeedBegins(c, moves, checkpoint);
    var n := DriveEnds(c, RunMoves(c, before));
    FedIsRun(c, before, n);
    assert FeedOver(w, RunMoves(c, moves + [Begin(checkpoint)] + Feedings(n)), checkpoint);
  }

  lemma FeedBegins(c: Config, moves: seq<Move>, checkpoint: nat)
    requires var w := RunMoves(c, moves); w.f.Off? && w.s.history != [] && Replays(w.s.history)
    ensures var w, u := RunMoves(c, moves), RunMoves(c, moves + [Begin(checkpoint)]);
            Steady(c, u) && u == w.(f := On(|w.s.history|, checkpoint, None, [], None, false, false))
  {
    hide Inv, Truth, GivenOk, FeedOk;
    RunOk(c, moves);
    var w, before := RunMoves(c, moves), moves + [Begin(checkpoint)];
    assert before[..|moves|] == moves;
    RunOk(c, before);
    HeadThere(c, w.s);
  }

  lemma HeadThere(c: Config, s: State)
    requires Inv(c, s) && s.history != []
    ensures Head(s.log) == Some(|s.history|) && s.boundary <= |s.history|
  {
    hide Replay;
    HoldsNumbered(s.log, s.history, s.boundary);
  }
}
