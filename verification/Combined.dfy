/**
 * The combined file sink: every stream's state folded into one rendered file,
 * rewritten when the hash of the rendering changes; and what the file holds
 * over appends, catch-ups and restarts of the process.
 *
 * One call at a time; the states of a stream are those its history replays to.
 */
module Combined {
  import opened Wrappers
  import opened Json
  import opened Events

  type Streams = map<StreamId, Json>

  datatype Config = Config(render: Streams -> string, hash: string -> nat, durable: bool)

  /** The sink's memory, and the file. */
  datatype Sink = Sink(streams: Streams, lastHash: Option<nat>, file: Option<string>)

  /** One commit, and whether it returned Ok. A failed write leaves the file, and the entry stays in memory. */
  function AfterCommit(c: Config, k: Sink, stream: StreamId, state: Json, works: bool): (Sink, bool) {
    var streams := k.streams[stream := state];
    var body := c.render(streams);
    if k.lastHash == Some(c.hash(body)) then (k.(streams := streams), true)
    else if works then (Sink(streams, Some(c.hash(body)), Some(body)), true)
    else (k.(streams := streams), false)
  }

  class CombinedFileSink {
    const c: Config
    var streams: Streams
    var lastHash: Option<nat>
    var file: Option<string>

    ghost function Contents(): Sink
      reads this
    {
      Sink(streams, lastHash, file)
    }

    /** A new process: the memory is empty, the file is what the last one left. */
    constructor (c: Config, left: Option<string>)
      ensures this.c == c && Contents() == Sink(map[], None, left)
    {
      this.c := c;
      streams, lastHash, file := map[], None, left;
    }

    method Commit(stream: StreamId, state: Json, works: bool) returns (ok: bool)
      modifies this
      ensures (Contents(), ok) == AfterCommit(c, old(Contents()), stream, state, works)
    {
      streams := streams[stream := state];
      var body := c.render(streams);
      var hash := c.hash(body);
      if lastHash == Some(hash) { return true; }
      if !works { return false; }
      file := Some(body);
      lastHash := Some(hash);
      return true;
    }
  }

  /** The remembered hash is that of the file. */
  predicate Remembers(c: Config, k: Sink) {
    k.lastHash.Some? ==> k.file.Some? && c.hash(k.file.value) == k.lastHash.value
  }

  /** Different renderings hash differently. */
  ghost predicate Separates(c: Config) {
    forall a: string, b: string :: c.hash(a) == c.hash(b) ==> a == b
  }

  /**
   * A commit that returns Ok leaves the rendering of the whole map in the
   * file, unless the hash of a different earlier body collides: then the write
   * is skipped and the file is stale.
   */
  lemma CommitWrites(c: Config, k: Sink, stream: StreamId, state: Json, works: bool)
    requires Remembers(c, k)
    ensures var (after, ok) := AfterCommit(c, k, stream, state, works);
            var body := c.render(k.streams[stream := state]);
            && Remembers(c, after) && after.streams == k.streams[stream := state]
            && (ok ==> after.lastHash.Some?
                       && (after.file == Some(body) <==> !(k.lastHash == Some(c.hash(body)) && k.file != Some(body))))
            && (!ok ==> after.file == k.file && after.lastHash == k.lastHash && !works)
  {
  }

  // ---- runs ---------------------------------------------------------------------------

  /** What goes well on one row of a drive, by coordinate, and on its checkpoint reset and read. */
  datatype Fate = Fate(resets: bool, loads: bool, works: nat -> bool, persists: nat -> bool)

  datatype World = World(
    states: map<StreamId, seq<Json>>,      // the state after each event
    sink: Sink,
    mem: map<StreamId, nat>,
    disk: map<StreamId, nat>,
    rebuilt: bool,                         // a catch-up returned in this process
    // the rest only records what happened in this process
    covered: bool,                         // the last catch-up skipped no stream the sink did not hold
    whole: bool,                           // and it had no failure
    stale: Option<StreamId>)               // the last commit failed, on this stream

  datatype Action =
    | Append(stream: StreamId, state: Json, fate: Fate)
    | CatchUp(order: seq<StreamId>, fates: StreamId -> Fate)
    | Restart

  const Initial := World(map[], Sink(map[], None, None), map[], map[], false, false, false, None)

  function StatesOf(w: World, stream: StreamId): seq<Json> {
    if stream in w.states then w.states[stream] else []
  }

  function Advanced(c: Config, w: World, stream: StreamId, seqNo: nat): World {
    w.(mem := w.mem[stream := seqNo], disk := if c.durable then w.disk[stream := seqNo] else w.disk)
  }

  function Checkpoint(c: Config, w: World, stream: StreamId, loads: bool): nat {
    if stream in w.mem then w.mem[stream]
    else if c.durable && loads && stream in w.disk then w.disk[stream] else 0
  }

  /** One row handed to the sink; `advance` says whether the checkpoint may follow. */
  function Handed(c: Config, w: World, stream: StreamId, seqNo: nat, fate: Fate, advance: bool): (World, bool)
    requires 1 <= seqNo <= |StatesOf(w, stream)|
  {
    var (sink, ok) := AfterCommit(c, w.sink, stream, StatesOf(w, stream)[seqNo - 1], fate.works(seqNo));
    var w := w.(sink := sink, stale := if ok then None else Some(stream));
    if ok && advance && (c.durable ==> fate.persists(seqNo)) then (Advanced(c, w, stream, seqNo), true)
    else (w, ok && !advance)
  }

  function Appended(c: Config, w: World, stream: StreamId, state: Json, fate: Fate): World {
    var n := |StatesOf(w, stream)| + 1;
    var w := w.(states := w.states[stream := StatesOf(w, stream) + [state]]);
    var checkpoint := Checkpoint(c, w, stream, fate.loads);
    var w := w.(mem := w.mem[stream := checkpoint]);
    if n <= checkpoint then w
    else Handed(c, w, stream, n, fate, n == checkpoint + 1).0
  }

  /** Rows past the cursor, until one fails. */
  function DriveFrom(c: Config, w: World, stream: StreamId, cursor: nat, fate: Fate): (World, bool)
    decreases |StatesOf(w, stream)| - cursor
  {
    if cursor >= |StatesOf(w, stream)| then (w, true)
    else
      var (w, ok) := Handed(c, w, stream, cursor + 1, fate, true);
      if ok then DriveFrom(c, w, stream, cursor + 1, fate) else (w, false)
  }

  function Started(c: Config, w: World, stream: StreamId, reset: bool, fate: Fate): World {
    var w := if !reset then w
             else w.(mem := w.mem - {stream}, disk := if c.durable && fate.resets then w.disk[stream := 0] else w.disk);
    w.(mem := w.mem[stream := Checkpoint(c, w, stream, fate.loads)])
  }

  /** The checkpoint the drive of a stream starts from. */
  function StartOf(c: Config, w: World, stream: StreamId, reset: bool, fate: Fate): nat {
    Started(c, w, stream, reset, fate).mem[stream]
  }

  function Drive(c: Config, w: World, stream: StreamId, reset: bool, fate: Fate): (World, bool) {
    DriveFrom(c, Started(c, w, stream, reset, fate), stream, StartOf(c, w, stream, reset, fate), fate)
  }

  /** Every stream in order: the world after, and whether none failed. */
  function DriveAll(c: Config, w: World, order: seq<StreamId>, reset: bool, fates: StreamId -> Fate): (World, bool) {
    if order == [] then (w, true)
    else
      var last := order[|order| - 1];
      var (w, clean) := DriveAll(c, w, order[..|order| - 1], reset, fates);
      var (after, ok) := Drive(c, w, last, reset, fates(last));
      (after, clean && ok)
  }

  ghost predicate Lists(order: seq<StreamId>, w: World) {
    && (forall s :: s in order <==> s in w.states)
    && forall i, j :: 0 <= i < j < |order| ==> order[i] != order[j]
  }

  /** The sink holds the stream's head state. */
  ghost predicate Held(w: World, stream: StreamId) {
    && stream in w.states && w.states[stream] != [] && stream in w.sink.streams
    && w.sink.streams[stream] == w.states[stream][|w.states[stream]| - 1]
  }

  /** The drive of this stream starts below its head, or the sink holds its head state already. */
  ghost predicate Covers(c: Config, w: World, stream: StreamId, reset: bool, fate: Fate) {
    StartOf(c, w, stream, reset, fate) < |StatesOf(w, stream)| || Held(w, stream)
  }

  ghost predicate AllCovered(c: Config, w: World, fates: StreamId -> Fate) {
    forall s :: s in w.states ==> Covers(c, w, s, !w.rebuilt, fates(s))
  }

  ghost function Step(c: Config, w: World, a: Action): World {
    match a
    case Append(stream, state, fate) => Appended(c, w, stream, state, fate)
    case CatchUp(order, fates) =>
      if !Lists(order, w) then w
      else
        var (after, clean) := DriveAll(c, w, order, !w.rebuilt, fates);
        var covered := AllCovered(c, w, fates);
        after.(rebuilt := true, covered := covered, whole := clean && covered)
    case Restart =>
      World(w.states, Sink(map[], None, w.sink.file), map[], w.disk, false, false, false, None)
  }

  ghost function Run(c: Config, actions: seq<Action>): World {
    if actions == [] then Initial
    else Step(c, Run(c, actions[..|actions| - 1]), actions[|actions| - 1])
  }

  /** The states appended to a stream, in order. */
  ghost function AppendedTo(actions: seq<Action>, stream: StreamId): seq<Json> {
    if actions == [] then []
    else
      var last := actions[|actions| - 1];
      AppendedTo(actions[..|actions| - 1], stream) + if last.Append? && last.stream == stream then [last.state] else []
  }

  lemma {:induction false} DriveFromStates(c: Config, w: World, stream: StreamId, cursor: nat, fate: Fate)
    ensures DriveFrom(c, w, stream, cursor, fate).0.states == w.states
    decreases |StatesOf(w, stream)| - cursor
  {
    if cursor < |StatesOf(w, stream)| {
      var (after, ok) := Handed(c, w, stream, cursor + 1, fate, true);
      if ok { DriveFromStates(c, after, stream, cursor + 1, fate); }
    }
  }

  lemma {:induction false} DriveAllStates(c: Config, w: World, order: seq<StreamId>, reset: bool, fates: StreamId -> Fate)
    ensures DriveAll(c, w, order, reset, fates).0.states == w.states
    decreases |order|
  {
    if order != [] {
      var last, w1 := order[|order| - 1], DriveAll(c, w, order[..|order| - 1], reset, fates).0;
      DriveAllStates(c, w, order[..|order| - 1], reset, fates);
      DriveFromStates(c, Started(c, w1, last, reset, fates(last)), last, StartOf(c, w1, last, reset, fates(last)), fates(last));
    }
  }

  /** Every append is in its stream, whatever became of its commit, and nothing else is. */
  lemma {:induction false} StatesAreAppends(c: Config, actions: seq<Action>, stream: StreamId)
    ensures StatesOf(Run(c, actions), stream) == AppendedTo(actions, stream)
    decreases |actions|
  {
    hide Step;
    if actions != [] {
      StatesAreAppends(c, actions[..|actions| - 1], stream);
      StepStates(c, Run(c, actions[..|actions| - 1]), actions[|actions| - 1], stream);
    }
  }

  lemma StepStates(c: Config, w: World, a: Action, stream: StreamId)
    ensures StatesOf(Step(c, w, a), stream) ==
            StatesOf(w, stream) + if a.Append? && a.stream == stream then [a.state] else []
  {
    hide Handed, DriveAll, Lists, AllCovered;
    match a {
      case Append(s, state, fate) =>
        AppendedStates(c, w, s, state, fate);
      case CatchUp(order, fates) =>
        DriveAllStates(c, w, order, !w.rebuilt, fates);
      case Restart =>
    }
  }

  lemma AppendedStates(c: Config, w: World, stream: StreamId, state: Json, fate: Fate)
    ensures Appended(c, w, stream, state, fate).states == w.states[stream := StatesOf(w, stream) + [state]]
  {
  }

  /** A new process finds the streams, the stored checkpoints and the file as they were left, and has forgotten the rest. */
  lemma RestartForgets(c: Config, actions: seq<Action>)
    ensures var w, after := Run(c, actions), Run(c, actions + [Restart]);
            && after.states == w.states && after.disk == w.disk && after.sink.file == w.sink.file
            && after.mem == map[] && after.sink.streams == map[] && after.sink.lastHash == None && !after.rebuilt
  {
    assert (actions + [Restart])[..|actions|] == actions;
  }

  /** Every stream's state at its head. */
  function Heads(states: map<StreamId, seq<Json>>): Streams {
    map s | s in states && states[s] != [] :: states[s][|states[s]| - 1]
  }

  // ---- the invariant ------------------------------------------------------------------

  ghost predicate Bounded(w: World) {
    && (forall s :: s in w.states ==> w.states[s] != [])
    && (forall s :: s in w.mem ==> s in w.states && w.mem[s] <= |w.states[s]|)
    && (forall s :: s in w.disk ==> s in w.states && w.disk[s] <= |w.states[s]|)
    && (forall s :: s in w.sink.streams ==> s in w.states)
    && (w.stale.Some? ==> w.stale.value in w.states)
  }

  /** What the sink remembers is in the file, unless the last commit failed. */
  ghost predicate Written(c: Config, w: World) {
    && Remembers(c, w.sink)
    && (w.sink.lastHash.Some? && w.stale.None? ==> w.sink.file == Some(c.render(w.sink.streams)))
    && (w.sink.streams != map[] && w.stale.None? ==> w.sink.lastHash.Some?)
  }

  /** After a failed commit its stream's checkpoint is behind. */
  ghost predicate Lagging(w: World) {
    w.stale.Some? ==> w.stale.value in w.mem && w.stale.value in w.states && w.mem[w.stale.value] < |w.states[w.stale.value]|
  }

  /** And while no catch-up has returned, so is the stored one; a catch-up under way has dealt with `done`. */
  ghost predicate DiskLags(w: World, done: seq<StreamId>) {
    w.stale.Some? && w.stale.value !in done && w.stale.value in w.disk ==>
      w.stale.value in w.states && w.disk[w.stale.value] < |w.states[w.stale.value]|
  }

  /** At the head: the checkpoint says the stream's last row was delivered. */
  ghost predicate AtHead(w: World, stream: StreamId) {
    stream in w.states && stream in w.mem && w.mem[stream] == |w.states[stream]|
  }

  /** Where the checkpoint is at the head, the sink holds the head state. */
  ghost predicate Tracked(w: World, stream: StreamId) {
    stream in w.states ==> stream in w.mem && (AtHead(w, stream) ==> Held(w, stream))
  }

  /** What every step keeps, apart from the flags. */
  ghost predicate Sound(c: Config, w: World) {
    Bounded(w) && Written(c, w) && Lagging(w)
  }

  /** Nothing of any other stream is touched. */
  predicate Besides(w: World, after: World, stream: StreamId) {
    && after.states == w.states && after.rebuilt == w.rebuilt && after.covered == w.covered && after.whole == w.whole
    && (after.stale == w.stale || after.stale == None || after.stale == Some(stream))
    && after.mem - {stream} == w.mem - {stream} && after.disk - {stream} == w.disk - {stream}
    && after.sink.streams - {stream} == w.sink.streams - {stream}
  }

  lemma CommitShape(c: Config, k: Sink, stream: StreamId, state: Json, works: bool)
    ensures var (after, ok) := AfterCommit(c, k, stream, state, works);
            after.streams == k.streams[stream := state] && (ok || k.lastHash.Some? ==> after.lastHash.Some?)
  {
  }

  lemma HandedBounded(c: Config, w: World, stream: StreamId, seqNo: nat, fate: Fate, advance: bool)
    requires Bounded(w) && 1 <= seqNo <= |StatesOf(w, stream)|
    ensures Bounded(Handed(c, w, stream, seqNo, fate, advance).0)
  {
    hide Remembers;
  }

  lemma HandedWritten(c: Config, w: World, stream: StreamId, seqNo: nat, fate: Fate, advance: bool)
    requires Separates(c) && Written(c, w) && 1 <= seqNo <= |StatesOf(w, stream)|
    ensures Written(c, Handed(c, w, stream, seqNo, fate, advance).0)
  {
    hide Remembers;
    CommitWrites(c, w.sink, stream, StatesOf(w, stream)[seqNo - 1], fate.works(seqNo));
  }

  lemma HandedBesides(c: Config, w: World, stream: StreamId, seqNo: nat, fate: Fate, advance: bool)
    requires 1 <= seqNo <= |StatesOf(w, stream)|
    ensures Besides(w, Handed(c, w, stream, seqNo, fate, advance).0, stream)
  {
    hide AfterCommit, StatesOf;
    CommitShape(c, w.sink, stream, StatesOf(w, stream)[seqNo - 1], fate.works(seqNo));
    var (sink, ok) := AfterCommit(c, w.sink, stream, StatesOf(w, stream)[seqNo - 1], fate.works(seqNo));
    var next := w.(sink := sink, stale := if ok then None else Some(stream));
    CommitBesides(w, next, stream, StatesOf(w, stream)[seqNo - 1]);
    AdvanceBesides(c, w, next, stream, seqNo);
  }

  lemma CommitBesides(w: World, next: World, stream: StreamId, state: Json)
    requires next == w.(sink := next.sink, stale := next.stale) && next.sink.streams == w.sink.streams[stream := state]
    requires next.stale == None || next.stale == Some(stream)
    ensures Besides(w, next, stream)
  {
  }

  lemma AdvanceBesides(c: Config, w: World, next: World, stream: StreamId, seqNo: nat)
    requires Besides(w, next, stream)
    ensures Besides(w, Advanced(c, next, stream, seqNo), stream)
  {
  }

  /** One row: the entry is the row's state, the checkpoint follows or stays, a refusal leaves the stream behind. */
  lemma HandedKeeps(c: Config, w: World, stream: StreamId, seqNo: nat, fate: Fate, advance: bool)
    requires Separates(c) && Sound(c, w) && 1 <= seqNo <= |StatesOf(w, stream)| && stream in w.mem && w.mem[stream] < seqNo
    ensures var (after, ok) := Handed(c, w, stream, seqNo, fate, advance);
            && Sound(c, after) && Besides(w, after, stream)
            && stream in after.mem && after.mem[stream] == (if ok && advance then seqNo else w.mem[stream])
            && stream in after.sink.streams && after.sink.streams[stream] == StatesOf(w, stream)[seqNo - 1]
            && (after.stale.None? || after.stale == Some(stream))
            && (after.stale.Some? ==> after.disk == w.disk) && (fate.works(seqNo) ==> after.stale.None?)
  {
    HandedBounded(c, w, stream, seqNo, fate, advance);
    HandedWritten(c, w, stream, seqNo, fate, advance);
    HandedBesides(c, w, stream, seqNo, fate, advance);
    HandedEntry(c, w, stream, seqNo, fate, advance);
    hide Bounded, Written, Besides, Separates, Handed;
  }

  lemma HandedEntry(c: Config, w: World, stream: StreamId, seqNo: nat, fate: Fate, advance: bool)
    requires 1 <= seqNo <= |StatesOf(w, stream)| && stream in w.mem
    ensures var (after, ok) := Handed(c, w, stream, seqNo, fate, advance);
            && stream in after.mem && after.mem[stream] == (if ok && advance then seqNo else w.mem[stream])
            && stream in after.sink.streams && after.sink.streams[stream] == StatesOf(w, stream)[seqNo - 1]
            && (after.stale.None? || (after.stale == Some(stream) && !ok && after.disk == w.disk && after.mem == w.mem))
            && (fate.works(seqNo) ==> after.stale.None?)
  {
    hide AfterCommit, StatesOf;
    CommitShape(c, w.sink, stream, StatesOf(w, stream)[seqNo - 1], fate.works(seqNo));
    CommitOk(c, w.sink, stream, StatesOf(w, stream)[seqNo - 1], fate.works(seqNo));
  }

  lemma CommitOk(c: Config, k: Sink, stream: StreamId, state: Json, works: bool)
    ensures works ==> AfterCommit(c, k, stream, state, works).1
  {
  }

  lemma BesidesTwice(a: World, b: World, c: World, stream: StreamId)
    requires Besides(a, b, stream) && Besides(b, c, stream)
    ensures Besides(a, c, stream)
  {
  }

  lemma MemBounded(w: World, stream: StreamId)
    requires Bounded(w) && stream in w.mem
    ensures w.mem[stream] <= |StatesOf(w, stream)|
  {
  }

  /** A row handed on a tracked stream keeps it tracked. */
  lemma HandedTracked(c: Config, w: World, stream: StreamId, seqNo: nat, fate: Fate, advance: bool)
    requires Separates(c) && Sound(c, w) && 1 <= seqNo <= |StatesOf(w, stream)|
    requires Tracked(w, stream) && stream in w.mem && w.mem[stream] < seqNo
    ensures Tracked(Handed(c, w, stream, seqNo, fate, advance).0, stream)
  {
    hide Sound, Handed;
    HandedKeeps(c, w, stream, seqNo, fate, advance);
  }

  lemma {:induction false} DriveFromKeeps(c: Config, w: World, stream: StreamId, cursor: nat, fate: Fate)
    requires Separates(c) && Sound(c, w) && stream in w.mem && w.mem[stream] == cursor
    ensures var (after, ok) := DriveFrom(c, w, stream, cursor, fate);
            && Sound(c, after) && Besides(w, after, stream)
            && stream in after.mem && (ok ==> after.mem[stream] == |StatesOf(w, stream)|)
            && (Tracked(w, stream) ==> Tracked(after, stream))
    decreases |StatesOf(w, stream)| - cursor
  {
    hide Bounded, Written, Lagging, Handed, Tracked;
    MemBounded(w, stream);
    if cursor < |StatesOf(w, stream)| {
      HandedKeeps(c, w, stream, cursor + 1, fate, true);
      if Tracked(w, stream) { HandedTracked(c, w, stream, cursor + 1, fate, true); }
      var (next, ok) := Handed(c, w, stream, cursor + 1, fate, true);
      if ok {
        DriveFromKeeps(c, next, stream, cursor + 1, fate);
        BesidesTwice(w, next, DriveFrom(c, next, stream, cursor + 1, fate).0, stream);
      }
    } else {
      assert Besides(w, w, stream);
    }
  }

  // ---- one stream of a catch-up -------------------------------------------------------

  lemma StartedKeeps(c: Config, w: World, stream: StreamId, reset: bool, fate: Fate)
    requires Sound(c, w) && stream in w.states && (reset && w.stale == Some(stream) && stream in w.disk ==>
             w.disk[stream] < |w.states[stream]|)
    ensures var after := Started(c, w, stream, reset, fate);
            && Sound(c, after) && Besides(w, after, stream) && stream in after.mem && after.sink == w.sink
            && (Covers(c, w, stream, reset, fate) ==> Tracked(after, stream))
  {
    hide Tracked, Besides, Bounded, Written, Remembers, Started, Covers, Lagging;
    StartedBounded(c, w, stream, reset, fate);
    StartedLags(c, w, stream, reset, fate);
    StartedTracked(c, w, stream, reset, fate);
    StartedBesides(c, w, stream, reset, fate);
    SameWritten(c, w, Started(c, w, stream, reset, fate));
  }

  lemma SameWritten(c: Config, w: World, after: World)
    requires Written(c, w) && after.sink == w.sink && after.stale == w.stale
    ensures Written(c, after)
  {
  }

  lemma StartedBounded(c: Config, w: World, stream: StreamId, reset: bool, fate: Fate)
    requires Bounded(w) && stream in w.states
    ensures var after := Started(c, w, stream, reset, fate);
            Bounded(after) && stream in after.mem && after.sink == w.sink && after.stale == w.stale && w.states[stream] != []
  {
  }

  lemma StartedLags(c: Config, w: World, stream: StreamId, reset: bool, fate: Fate)
    requires Lagging(w) && stream in w.states && w.states[stream] != []
    requires reset && w.stale == Some(stream) && stream in w.disk ==> w.disk[stream] < |w.states[stream]|
    ensures Lagging(Started(c, w, stream, reset, fate))
  {
  }

  lemma StartedBesides(c: Config, w: World, stream: StreamId, reset: bool, fate: Fate)
    ensures Besides(w, Started(c, w, stream, reset, fate), stream)
  {
  }

  lemma StartedTracked(c: Config, w: World, stream: StreamId, reset: bool, fate: Fate)
    requires stream in w.states
    ensures Covers(c, w, stream, reset, fate) ==> Tracked(Started(c, w, stream, reset, fate), stream)
  {
  }

  /**
   * One stream driven. Without a failure it is at the head, and the sink then
   * holds its head state if and only if the drive started below it or the sink
   * held it before.
   */
  lemma DriveKeeps(c: Config, w: World, stream: StreamId, reset: bool, fate: Fate)
    requires Separates(c) && Sound(c, w) && stream in w.states
    requires reset && w.stale == Some(stream) && stream in w.disk ==> w.disk[stream] < |w.states[stream]|
    ensures var (after, ok) := Drive(c, w, stream, reset, fate);
            && Sound(c, after) && Besides(w, after, stream)
            && (Covers(c, w, stream, reset, fate) ==> Tracked(after, stream))
            && (ok ==> AtHead(after, stream) && (Held(after, stream) <==> Covers(c, w, stream, reset, fate)))
  {
    hide Bounded, Written, Lagging, Tracked, Started, DriveFrom;
    StartedKeeps(c, w, stream, reset, fate);
    var w1, start := Started(c, w, stream, reset, fate), StartOf(c, w, stream, reset, fate);
    assert StatesOf(w1, stream) == StatesOf(w, stream);
    DriveFromKeeps(c, w1, stream, start, fate);
    BesidesTwice(w, w1, Drive(c, w, stream, reset, fate).0, stream);
    if start >= |StatesOf(w, stream)| { NothingToDrive(c, w1, stream, start, fate); }
    TrackedAtHead(Drive(c, w, stream, reset, fate).0, stream);
  }

  lemma NothingToDrive(c: Config, w: World, stream: StreamId, cursor: nat, fate: Fate)
    requires cursor >= |StatesOf(w, stream)|
    ensures DriveFrom(c, w, stream, cursor, fate) == (w, true)
  {
  }

  lemma TrackedAtHead(w: World, stream: StreamId)
    ensures Tracked(w, stream) && AtHead(w, stream) ==> Held(w, stream)
  {
  }

  // ---- whole catch-ups ----------------------------------------------------------------

  /** Nothing of this stream is touched. */
  predicate Same(w: World, after: World, stream: StreamId) {
    && after.states == w.states
    && (stream in after.mem <==> stream in w.mem) && (stream in w.mem ==> after.mem[stream] == w.mem[stream])
    && (stream in after.disk <==> stream in w.disk) && (stream in w.disk ==> after.disk[stream] == w.disk[stream])
    && (stream in after.sink.streams <==> stream in w.sink.streams)
    && (stream in w.sink.streams ==> after.sink.streams[stream] == w.sink.streams[stream])
  }

  lemma OthersSame(w: World, after: World, stream: StreamId, other: StreamId)
    requires Besides(w, after, stream) && other != stream
    ensures Same(w, after, other)
  {
    OtherKey(w.mem, after.mem, stream, other);
    OtherKey(w.disk, after.disk, stream, other);
    OtherKey(w.sink.streams, after.sink.streams, stream, other);
  }

  /** What is said of a stream depends on nothing else. */
  lemma SameSays(c: Config, w: World, after: World, stream: StreamId, reset: bool, fate: Fate)
    requires Same(w, after, stream)
    ensures Held(after, stream) == Held(w, stream) && Tracked(after, stream) == Tracked(w, stream)
            && AtHead(after, stream) == AtHead(w, stream)
    ensures Covers(c, after, stream, reset, fate) == Covers(c, w, stream, reset, fate)
  {
    hide Started;
    StartIs(c, w, stream, reset, fate);
    StartIs(c, after, stream, reset, fate);
  }

  lemma StartIs(c: Config, w: World, stream: StreamId, reset: bool, fate: Fate)
    ensures StartOf(c, w, stream, reset, fate) ==
            if !reset then Checkpoint(c, w, stream, fate.loads)
            else if c.durable && !fate.resets && fate.loads && stream in w.disk then w.disk[stream] else 0
  {
  }

  /** The drives may begin: no stored checkpoint of a stream still to come hides a failed commit. */
  ghost predicate Ready(w: World, reset: bool, done: seq<StreamId>) {
    reset ==> DiskLags(w, done)
  }

  lemma {:induction false} DriveAllKeeps(c: Config, w: World, order: seq<StreamId>, reset: bool, fates: StreamId -> Fate)
    requires Separates(c) && Sound(c, w) && Ready(w, reset, [])
    requires (forall s :: s in order ==> s in w.states) && forall i, j :: 0 <= i < j < |order| ==> order[i] != order[j]
    ensures var (after, _) := DriveAll(c, w, order, reset, fates);
            && Sound(c, after) && Ready(after, reset, order)
            && after.states == w.states && after.rebuilt == w.rebuilt
    ensures forall s :: s !in order ==> Same(w, DriveAll(c, w, order, reset, fates).0, s)
    decreases |order|
  {
    hide Bounded, Written, Lagging, Drive, Besides, Same;
    if order == [] {
      forall s ensures Same(w, w, s) { SameItself(w, s); }
    } else {
      var last, before := order[|order| - 1], order[..|order| - 1];
      DriveAllKeeps(c, w, before, reset, fates);
      var w1 := DriveAll(c, w, before, reset, fates).0;
      assert order == before + [last];
      DriveKeeps(c, w1, last, reset, fates(last));
      var after := Drive(c, w1, last, reset, fates(last)).0;
      BesidesFlags(w1, after, last, before);
      forall s | s !in order ensures Same(w, after, s) {
        OthersSame(w1, after, last, s);
        SameTwice(w, w1, after, s);
      }
    }
  }

  lemma SameItself(w: World, stream: StreamId)
    ensures Same(w, w, stream)
  {
  }

  lemma SameTwice(a: World, b: World, c: World, stream: StreamId)
    requires Same(a, b, stream) && Same(b, c, stream)
    ensures Same(a, c, stream)
  {
  }

  lemma BesidesFlags(w: World, after: World, stream: StreamId, done: seq<StreamId>)
    requires Besides(w, after, stream)
    ensures after.states == w.states && after.rebuilt == w.rebuilt && after.covered == w.covered && after.whole == w.whole
    ensures DiskLags(w, done) ==> DiskLags(after, done + [stream])
  {
    if after.stale.Some? && after.stale.value != stream { OtherKey(w.disk, after.disk, stream, after.stale.value); }
  }

  /** What a catch-up does to one of its streams, whatever the others do. */
  lemma {:induction false} DriveAllOn(c: Config, w: World, order: seq<StreamId>, reset: bool, fates: StreamId -> Fate,
        stream: StreamId)
    requires Separates(c) && Sound(c, w) && Ready(w, reset, []) && stream in order
    requires (forall s :: s in order ==> s in w.states) && forall i, j :: 0 <= i < j < |order| ==> order[i] != order[j]
    ensures var (after, clean) := DriveAll(c, w, order, reset, fates);
            && (Covers(c, w, stream, reset, fates(stream)) ==> Tracked(after, stream))
            && (clean ==> AtHead(after, stream) && (Held(after, stream) <==> Covers(c, w, stream, reset, fates(stream))))
    decreases |order|
  {
    hide Bounded, Written, Lagging, Drive, Besides, Same, Covers, Tracked, AtHead, Held;
    var last, before := order[|order| - 1], order[..|order| - 1];
    assert order == before + [last];
    DriveAllKeeps(c, w, before, reset, fates);
    var w1 := DriveAll(c, w, before, reset, fates).0;
    DriveKeeps(c, w1, last, reset, fates(last));
    if stream == last {
      assert stream !in before;
      SameSays(c, w, w1, stream, reset, fates(stream));
    } else {
      DriveAllOn(c, w, before, reset, fates, stream);
      var after := Drive(c, w1, last, reset, fates(last)).0;
      OthersSame(w1, after, last, stream);
      SameSays(c, w1, after, stream, reset, fates(stream));
    }
  }

  // ---- every run ----------------------------------------------------------------------

  ghost predicate AllTracked(w: World) {
    forall s :: s in w.states ==> Tracked(w, s)
  }

  ghost predicate AllHeld(w: World) {
    forall s :: s in w.states ==> Held(w, s)
  }

  ghost predicate Inv(c: Config, w: World) {
    && Sound(c, w) && Ready(w, !w.rebuilt, [])
    && (w.rebuilt && w.covered ==> AllTracked(w)) && (w.whole ==> w.rebuilt && w.covered && AllHeld(w))
  }

  /** The new event in the log, before the sink sees it. */
  function Logged(c: Config, w: World, stream: StreamId, state: Json, loads: bool): World {
    w.(states := w.states[stream := StatesOf(w, stream) + [state]], mem := w.mem[stream := Checkpoint(c, w, stream, loads)])
  }

  lemma LoggedKeeps(c: Config, w: World, stream: StreamId, state: Json, loads: bool)
    requires Sound(c, w)
    ensures var next := Logged(c, w, stream, state, loads);
            && Sound(c, next) && stream in next.mem && next.mem[stream] <= |StatesOf(w, stream)|
            && (stream in next.disk ==> next.disk[stream] <= |StatesOf(w, stream)|)
            && (Tracked(w, stream) ==> Tracked(next, stream))
  {
    hide Remembers;
  }

  lemma LoggedOthers(c: Config, w: World, stream: StreamId, state: Json, loads: bool, other: StreamId)
    requires other != stream
    ensures var next := Logged(c, w, stream, state, loads);
            (Tracked(w, other) ==> Tracked(next, other)) && (Held(w, other) ==> Held(next, other))
  {
  }

  /** An append is handed to the sink, and the sink holds the stream's new head whatever goes wrong after. */
  lemma AppendedKeeps(c: Config, w: World, stream: StreamId, state: Json, fate: Fate)
    requires Separates(c) && Inv(c, w)
    ensures var after := Appended(c, w, stream, state, fate);
            && Inv(c, after) && after.whole == w.whole && after.rebuilt == w.rebuilt && after.covered == w.covered
            && after.states == w.states[stream := StatesOf(w, stream) + [state]]
            && (fate.works(|StatesOf(w, stream)| + 1) ==> after.stale.None?)
  {
    hide Sound, Tracked, Held, Handed, Besides, Checkpoint, Same;
    var next := Logged(c, w, stream, state, fate.loads);
    var n := |StatesOf(w, stream)| + 1;
    var advance := n == next.mem[stream] + 1;
    LoggedKeeps(c, w, stream, state, fate.loads);
    HandedKeeps(c, next, stream, n, fate, advance);
    var after := Handed(c, next, stream, n, fate, advance).0;
    assert Appended(c, w, stream, state, fate) == after by { AppendedIs(c, w, stream, state, fate); }
    BesidesFlags(next, after, stream, []);
    forall s | s in after.states && w.rebuilt && w.covered ensures Tracked(after, s) {
      if s == stream {
        if s !in w.states { Unknown(w, s); }
        HandedTracked(c, next, stream, n, fate, advance);
      } else {
        LoggedOthers(c, w, stream, state, fate.loads, s);
        OthersSame(next, after, stream, s);
        SameSays(c, next, after, s, false, fate);
      }
    }
    forall s | s in after.states && w.whole ensures Held(after, s) {
      if s == stream {
        NowHeld(after, s, state);
      } else {
        LoggedOthers(c, w, stream, state, fate.loads, s);
        OthersSame(next, after, stream, s);
        SameSays(c, next, after, s, false, fate);
      }
    }
  }

  lemma AppendedIs(c: Config, w: World, stream: StreamId, state: Json, fate: Fate)
    requires Sound(c, w)
    ensures var next, n := Logged(c, w, stream, state, fate.loads), |StatesOf(w, stream)| + 1;
            Appended(c, w, stream, state, fate) == Handed(c, next, stream, n, fate, n == next.mem[stream] + 1).0
  {
    hide Handed;
  }

  lemma Unknown(w: World, stream: StreamId)
    requires stream !in w.states
    ensures Tracked(w, stream)
  {
  }

  lemma NowHeld(w: World, stream: StreamId, state: Json)
    requires stream in w.states && w.states[stream] != [] && w.states[stream][|w.states[stream]| - 1] == state
    requires stream in w.sink.streams && w.sink.streams[stream] == state
    ensures Held(w, stream)
  {
  }

  /** Whether the catch-up of `order` in this world would report no failure. */
  predicate NoFailure(c: Config, w: World, order: seq<StreamId>, fates: StreamId -> Fate) {
    DriveAll(c, w, order, !w.rebuilt, fates).1
  }

  /**
   * A catch-up keeps the invariant; with no failure no commit is left refused, and all
   * heads are held if and only if all streams were covered.
   */
  lemma CatchUpKeeps(c: Config, w: World, order: seq<StreamId>, fates: StreamId -> Fate)
    requires Separates(c) && Inv(c, w) && Lists(order, w)
    ensures var after := Step(c, w, CatchUp(order, fates));
            && Inv(c, after) && after.states == w.states
            && (NoFailure(c, w, order, fates) ==> after.stale == None && (AllHeld(after) <==> AllCovered(c, w, fates)))
  {
    hide Bounded, Written, Tracked, Held, AtHead, DriveAll, Covers, Same;
    DriveAllKeeps(c, w, order, !w.rebuilt, fates);
    var (driven, clean) := DriveAll(c, w, order, !w.rebuilt, fates);
    var after := Step(c, w, CatchUp(order, fates));
    SameButFlags(c, driven, after);
    forall s | s in w.states
      ensures && (Covers(c, w, s, !w.rebuilt, fates(s)) ==> Tracked(after, s))
              && (clean ==> AtHead(after, s) && (Held(after, s) <==> Covers(c, w, s, !w.rebuilt, fates(s))))
    {
      DriveAllOn(c, w, order, !w.rebuilt, fates, s);
    }
    if clean && after.stale.Some? { StillBehind(after); }
  }

  lemma StillBehind(w: World)
    requires Lagging(w) && w.stale.Some?
    ensures w.stale.value in w.states && !AtHead(w, w.stale.value)
  {
  }

  /** The flags recorded at the end of a catch-up are no part of what is kept. */
  lemma SameButFlags(c: Config, w: World, after: World)
    requires after == w.(rebuilt := after.rebuilt, covered := after.covered, whole := after.whole)
    ensures Sound(c, after) == Sound(c, w)
    ensures forall s :: Tracked(after, s) == Tracked(w, s) && Held(after, s) == Held(w, s) && AtHead(after, s) == AtHead(w, s)
  {
    hide Remembers;
    forall s ensures Tracked(after, s) == Tracked(w, s) && Held(after, s) == Held(w, s) && AtHead(after, s) == AtHead(w, s) {
    }
  }

  lemma {:induction false} RunInv(c: Config, actions: seq<Action>)
    requires Separates(c)
    ensures Inv(c, Run(c, actions))
    decreases |actions|
  {
    hide Step, Inv;
    if actions == [] {
      assert Inv(c, Initial) by { StartInv(c); }
    } else {
      var before, a := actions[..|actions| - 1], actions[|actions| - 1];
      RunInv(c, before);
      StepInv(c, Run(c, before), a);
    }
  }

  lemma StartInv(c: Config)
    ensures Inv(c, Initial)
  {
  }

  lemma StepInv(c: Config, w: World, a: Action)
    requires Separates(c) && Inv(c, w)
    ensures Inv(c, Step(c, w, a))
  {
    hide Appended, DriveAll, AllTracked, AllHeld, Lists, AllCovered;
    match a {
      case Append(stream, state, fate) => AppendedKeeps(c, w, stream, state, fate);
      case CatchUp(order, fates) => if Lists(order, w) { CatchUpKeeps(c, w, order, fates); }
      case Restart =>
    }
  }

  // ---- main results -------------------------------------------------------------------

  lemma MapIsHeads(c: Config, w: World)
    requires Bounded(w)
    ensures w.sink.streams == Heads(w.states) <==> AllHeld(w)
  {
    if w.sink.streams == Heads(w.states) {
      forall s | s in w.states ensures Held(w, s) {
        assert s in Heads(w.states);
      }
    }
  }

  /**
   * Since a catch-up in this process returned without a failure, having skipped
   * no stream the sink did not hold, the sink's map is every stream's head
   * state after every append; and the file is its rendering unless the last
   * commit failed.
   */
  lemma FileIsHeads(c: Config, actions: seq<Action>)
    requires Separates(c) && Run(c, actions).whole
    ensures var w := Run(c, actions);
            && w.sink.streams == Heads(w.states)
            && (w.states != map[] && w.stale.None? ==> w.sink.file == Some(c.render(Heads(w.states))))
  {
    RunInv(c, actions);
    FileOfHeld(c, Run(c, actions));
  }

  lemma FileOfHeld(c: Config, w: World)
    requires Sound(c, w) && AllHeld(w)
    ensures w.sink.streams == Heads(w.states)
    ensures w.states != map[] && w.stale.None? ==> w.sink.file == Some(c.render(Heads(w.states)))
  {
    hide Remembers, Lagging;
    MapIsHeads(c, w);
    if w.states != map[] {
      var s :| s in w.states;
      assert Held(w, s);
    }
  }

  /**
   * Exactly when a catch-up that reports no failure leaves the map right: every
   * stream started below its head or was held already. No commit is then left
   * refused, so with the map the file is right.
   */
  lemma CatchUpIsRight(c: Config, actions: seq<Action>, order: seq<StreamId>, fates: StreamId -> Fate)
    requires Separates(c) && Lists(order, Run(c, actions)) && NoFailure(c, Run(c, actions), order, fates)
    ensures var w, after := Run(c, actions), Step(c, Run(c, actions), CatchUp(order, fates));
            && after.stale == None && (after.whole <==> AllCovered(c, w, fates))
            && (after.sink.streams == Heads(after.states) <==>
                  forall s :: s in w.states ==> StartOf(c, w, s, !w.rebuilt, fates(s)) < |StatesOf(w, s)| || Held(w, s))
            && (after.sink.streams == Heads(after.states) && after.states != map[] ==>
                 after.sink.file == Some(c.render(Heads(after.states))))
  {
    hide Bounded, Written, Tracked, Held, DriveAll, StartOf, Heads;
    RunInv(c, actions);
    var w := Run(c, actions);
    CatchUpKeeps(c, w, order, fates);
    var after := Step(c, w, CatchUp(order, fates));
    MapIsHeads(c, after);
    if AllHeld(after) { FileOfHeld(c, after); }
  }

  /**
   * In a process's first catch-up a stream does not start below its head if and
   * only if the stored checkpoint is at the head, the zero was not stored, and
   * the old row was read back.
   */
  lemma SkippedMeans(c: Config, actions: seq<Action>, stream: StreamId, fate: Fate)
    requires Separates(c) && stream in Run(c, actions).states
    ensures var w := Run(c, actions);
            StartOf(c, w, stream, true, fate) >= |StatesOf(w, stream)| <==>
              c.durable && !fate.resets && fate.loads && stream in w.disk && w.disk[stream] == |w.states[stream]|
  {
    RunInv(c, actions);
  }

  /** Everything works, on every row and every checkpoint. */
  ghost predicate Good(fate: Fate) {
    fate.resets && fate.loads && forall n: nat :: fate.works(n) && fate.persists(n)
  }

  lemma {:induction false} GoodDrive(c: Config, w: World, stream: StreamId, cursor: nat, fate: Fate)
    requires Good(fate)
    ensures DriveFrom(c, w, stream, cursor, fate).1
    decreases |StatesOf(w, stream)| - cursor
  {
    if cursor < |StatesOf(w, stream)| {
      var (next, ok) := Handed(c, w, stream, cursor + 1, fate, true);
      assert next.states == w.states;
      GoodDrive(c, next, stream, cursor + 1, fate);
    }
  }

  lemma {:induction false} GoodDriveAll(c: Config, w: World, order: seq<StreamId>, reset: bool, fates: StreamId -> Fate)
    requires forall s :: Good(fates(s))
    ensures DriveAll(c, w, order, reset, fates).1
    decreases |order|
  {
    hide DriveFrom, Good;
    if order != [] {
      var last, before := order[|order| - 1], order[..|order| - 1];
      GoodDriveAll(c, w, before, reset, fates);
      var w1 := DriveAll(c, w, before, reset, fates).0;
      GoodDrive(c, Started(c, w1, last, reset, fates(last)), last, StartOf(c, w1, last, reset, fates(last)), fates(last));
    }
  }

  /** Where everything works, the first catch-up of a process covers every stream, and so does each one after a covering one. */
  lemma GoodCatchUp(c: Config, actions: seq<Action>, order: seq<StreamId>, fates: StreamId -> Fate)
    requires Separates(c) && (forall s :: Good(fates(s))) && (Run(c, actions).rebuilt ==> Run(c, actions).covered)
    ensures NoFailure(c, Run(c, actions), order, fates) && AllCovered(c, Run(c, actions), fates)
  {
    hide DriveAll;
    RunInv(c, actions);
    var w := Run(c, actions);
    GoodDriveAll(c, w, order, !w.rebuilt, fates);
    forall s | s in w.states ensures Covers(c, w, s, !w.rebuilt, fates(s)) {
      if !w.rebuilt { GoodStart(c, w, s, fates(s)); } else { assert Tracked(w, s); MemBounded(w, s); }
    }
  }

  lemma GoodStart(c: Config, w: World, stream: StreamId, fate: Fate)
    requires Good(fate)
    ensures StartOf(c, w, stream, true, fate) == 0
  {
  }

  /**
   * Whatever happened before, in this process and earlier ones: after a
   * catch-up that reports no failure and covers every stream, the file is the
   * rendering of every stream's head state, and it is again after each later
   * append whose commit works, though checkpoint reads and writes then fail.
   */
  lemma {:induction false} FileFollows(c: Config, before: seq<Action>, order: seq<StreamId>, fates: StreamId -> Fate,
        appends: seq<Action>)
    requires Separates(c) && Lists(order, Run(c, before))
    requires NoFailure(c, Run(c, before), order, fates) && AllCovered(c, Run(c, before), fates)
    requires forall a :: a in appends ==> a.Append? && forall n: nat :: a.fate.works(n)
    ensures var w := Run(c, before + [CatchUp(order, fates)] + appends);
            && w.whole && w.stale == None
            && (w.states != map[] ==> w.sink.file == Some(c.render(Heads(w.states))))
    decreases |appends|
  {
    hide Step, Inv, Separates, Lists, AllCovered, NoFailure, Heads;
    var actions := before + [CatchUp(order, fates)] + appends;
    var earlier := actions[..|actions| - 1];
    if appends == [] {
      assert earlier == before;
      assert actions[|actions| - 1] == CatchUp(order, fates);
      CatchUpIsRight(c, before, order, fates);
    } else {
      var last := appends[|appends| - 1];
      assert last in appends;
      assert earlier == before + [CatchUp(order, fates)] + appends[..|appends| - 1];
      assert actions[|actions| - 1] == last;
      FileFollows(c, before, order, fates, appends[..|appends| - 1]);
      RunInv(c, earlier);
      GoodAppend(c, Run(c, earlier), last);
    }
    FileIsHeads(c, actions);
  }

  lemma GoodAppend(c: Config, w: World, a: Action)
    requires Separates(c) && Inv(c, w) && a.Append? && forall n: nat :: a.fate.works(n)
    ensures Step(c, w, a).whole == w.whole && Step(c, w, a).stale == None
  {
    hide Inv;
    AppendedKeeps(c, w, a.stream, a.state, a.fate);
  }

  /** Why the reset must be stored: a kept old checkpoint lets a catch-up report no failure and skip a stream. */
  lemma LostReset(c: Config, good: Fate, lost: Fate)
    requires c.durable && Good(good) && lost == good.(resets := false)
    requires c.render(map["b" := Null]) != c.render(map["a" := Null, "b" := Null])
    ensures var w := Run(c, [Append("a", Null, good), Restart, CatchUp(["a"], s => lost), Append("b", Null, good)]);
            && w.rebuilt && !w.whole && w.stale == None
            && w.sink.file == Some(c.render(map["b" := Null])) != Some(c.render(Heads(w.states)))
  {
    hide Appended, DriveAll, Lists, Good;
    assert lost.loads && !lost.resets by { GoodLoads(good); }
    var a0, a1, a2, a3 := Append("a", Null, good), Restart, CatchUp(["a"], s => lost), Append("b", Null, good);
    FirstAppend(c, Initial, "a", good);
    var w0 := Step(c, Initial, a0);
    var w1 := Step(c, w0, a1);
    SkippedStream(c, w1, lost);
    var w2 := Step(c, w1, a2);
    FirstAppend(c, w2, "b", good);
    var w3 := Step(c, w2, a3);
    assert Heads(w3.states) == map["a" := Null, "b" := Null];
    assert w3.sink.streams == map["b" := Null];
    FourSteps(c, a0, a1, a2, a3);
  }

  lemma GoodLoads(fate: Fate)
    requires Good(fate)
    ensures fate.loads
  {
  }

  lemma FourSteps(c: Config, a0: Action, a1: Action, a2: Action, a3: Action)
    ensures Run(c, [a0, a1, a2, a3]) == Step(c, Step(c, Step(c, Step(c, Initial, a0), a1), a2), a3)
  {
    hide Step;
    RunNext(c, [], a0);
    RunNext(c, [a0], a1);
    RunNext(c, [a0, a1], a2);
    RunNext(c, [a0, a1, a2], a3);
    assert [a0, a1, a2, a3] == [a0, a1, a2] + [a3] && [a0, a1, a2] == [a0, a1] + [a2] && [a0,
           a1] == [a0] + [a1] && [a0] == [] + [a0];
  }

  lemma FirstAppend(c: Config, w: World, stream: StreamId, good: Fate)
    requires c.durable && Good(good) && stream !in w.states && stream !in w.mem && stream !in w.disk && w.sink.lastHash == None
    ensures var body := c.render(w.sink.streams[stream := Null]);
            Appended(c, w, stream, Null, good) ==
            w.(states := w.states[stream := [Null]], mem := w.mem[stream := 1], disk := w.disk[stream := 1], stale := None,
               sink := Sink(w.sink.streams[stream := Null], Some(c.hash(body)), Some(body)))
  {
    assert StatesOf(w, stream) + [Null] == [Null];
    assert w.mem[stream := 0][stream := 1] == w.mem[stream := 1];
  }

  lemma SkippedStream(c: Config, w: World, lost: Fate)
    requires c.durable && lost.loads && !lost.resets && !w.rebuilt
    requires w.mem == map[] && w.disk == map["a" := 1] && w.states == map["a" := [Null]] && "a" !in w.sink.streams
    ensures Step(c, w, CatchUp(["a"], s => lost)) == w.(mem := map["a" := 1], rebuilt := true, covered := false, whole := false)
  {
    assert Lists(["a"], w);
    assert ["a"][..0] == [];
    assert DriveAll(c, w, [], true, s => lost) == (w, true);
    assert w.mem - {"a"} == map[];
    assert Started(c, w, "a", true, lost) == w.(mem := map["a" := 1]);
    assert !Covers(c, w, "a", true, lost);
    assert !AllCovered(c, w, s => lost);
  }

  lemma RunNext(c: Config, actions: seq<Action>, a: Action)
    ensures Run(c, actions + [a]) == Step(c, Run(c, actions), a)
  {
    hide Step;
    assert (actions + [a])[..|actions|] == actions;
  }
}
