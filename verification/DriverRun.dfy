/** What every turn of the driver keeps, on a run that may have crashed before: the
    tree it works on, the count of its actions, and every checkpoint it leaves. */
module DriverRun {
  import opened Basics
  import opened Workflow
  import opened GraphInvariant
  import opened Closure
  import opened Counting
  import opened System
  import opened History
  import opened DriverSteps

  // ------------------------------------------------------------ what is kept

  /** A composite waits for children that were never recorded, and blocks. */
  ghost predicate Stuck(g: Graph) {
    Attached(g) && NextOf(g) == Undecomposed
  }

  /** A graph the driver left, with a root it knows and no Cell below the depth. */
  ghost predicate Stands(g: Graph, root: Id, depth: nat) {
    (DriverInv(g) || Stuck(g)) && IsRoot(g, root) && NoDeeperThan(g, depth)
  }

  ghost predicate Standing(s: Sys, root: Id, depth: nat) {
    LiveSound(s.graph.runId, s) && Stands(s.graph, root, depth)
  }

  /** What holds between two driver actions, unless the run is stuck. */
  ghost predicate Running(s: Sys, root: Id, depth: nat) {
    s.status == Active && Standing(s, root, depth) && DriverInv(s.graph)
  }

  /** Every checkpoint from n on saves a graph the driver can have left. */
  ghost predicate SavesStanding(def: Definition, root: Id, depth: nat, n: nat, log: Log) {
    forall i | n <= i < |log| && log[i].Checkpoint? :: Stands(GraphOf(def, log[i].state.graph), root, depth)
  }

  /** Every checkpoint from n on saves a graph the driver can go on with, except one
      under the given id, which saves a composite waiting for its children. */
  ghost predicate Tells(def: Definition, half: Option<Key>, n: nat, log: Log) {
    forall i | n <= i < |log| && log[i].Checkpoint? ::
      if half == Some(log[i].key) then Stuck(GraphOf(def, log[i].state.graph))
      else DriverInv(GraphOf(def, log[i].state.graph))
  }

  predicate CleanKey(key: Key, state: SavedState) {
    key.OnCell? && key.topic != PostReviewed ==> Bounded(key, state)
  }

  /** No event is ahead of the memory: no crash cut one off from its checkpoint, or
      its call was redone. Post-reviews do not matter: they do not move a Cell on. */
  ghost predicate Clean(s: Sys) {
    forall q | q in s.log && q.Event? :: CleanKey(q.key, Save(s))
  }

  lemma DriverIsNeverStuck(g: Graph)
    requires DriverInv(g)
    ensures NextOf(g) != Undecomposed
  {
    ScanFindsNoGap(g, Schedule(g));
  }

  lemma {:induction false} ScanFindsNoGap(g: Graph, order: seq<Id>)
    requires DriverInv(g) && forall i | 0 <= i < |order| :: order[i] in g.cells
    ensures Scan(g, order) != Undecomposed
  {
    if order != [] {
      assert Populated(g, order[0]);
      ScanFindsNoGap(g, order[1..]);
    }
  }

  lemma CleanMeansFree(s: Sys, key: Key, payload: Payload)
    requires Clean(s) && key.OnCell? && key.topic != PostReviewed && !Bounded(key, Save(s))
    ensures !Clashes(s.log, key, payload)
  {
    forall q | q in s.log && q.Event? ensures q.key != key { assert CleanKey(q.key, Save(s)); }
  }

  lemma NewerKeepsClean(s: Sys, g': Graph)
    requires Clean(s) && Newer(s.graph, g')
    ensures Clean(s.(graph := g'))
  {
    forall q | q in s.log && q.Event? ensures CleanKey(q.key, Save(s.(graph := g'))) {
      assert CleanKey(q.key, Save(s));
    }
  }

  lemma AppendKeepsClean(s: Sys, key: Key, payload: Payload)
    requires Clean(s) && CleanKey(key, Save(s))
    ensures Clean(Append(s, key, payload).sys)
  {
    var t := Append(s, key, payload).sys;
    forall q | q in t.log && q.Event? ensures CleanKey(q.key, Save(t)) {
      assert q in s.log ==> CleanKey(q.key, Save(s));
    }
  }

  lemma {:induction false} BirthsKeepClean(s: Sys, ids: seq<Id>)
    requires Clean(s) && forall id | id in ids :: id in s.graph.cells
    ensures Clean(AppendBirths(s, ids).sys) && Save(AppendBirths(s, ids).sys) == Save(s)
  {
    if ids != [] {
      var n := |ids| - 1;
      BirthsKeepClean(s, ids[..n]);
      var o := AppendBirths(s, ids[..n]);
      if o.error == None { AppendKeepsClean(o.sys, BirthKey(s.graph, ids[n]), BirthOf(s.graph, ids[n])); }
    }
  }

  // ------------------------------------------------------------ one turn

  /** Between the calls of one turn: nothing counted yet. */
  ghost predicate Stays(s: Sys, s': Sys, root: Id, depth: nat) {
    && Running(s', root, depth) && s.log <= s'.log
    && s'.graph.def == s.graph.def && s'.graph.runId == s.graph.runId && s'.roles == s.roles
    && root in s.graph.cells && s'.graph.cells[root].obligations == s.graph.cells[root].obligations
    && Total(s'.graph) == Total(s.graph)
    && SavesStanding(s.graph.def, root, depth, |s.log|, s'.log) && Tells(s.graph.def, None, |s.log|, s'.log)
    && (Clean(s) ==> Clean(s'))
  }

  /** A turn's outcome: counted once if it returned. If it was refused, nothing
      moved, or the Cell moved in memory and its record clashed with an event that is
      ahead of it; only such a clash can leave the run stuck. */
  ghost predicate Turned(s: Sys, o: SysOutcome, root: Id, depth: nat) {
    && o.sys.status == Active && Standing(o.sys, root, depth) && s.log <= o.sys.log
    && o.sys.graph.def == s.graph.def && o.sys.graph.runId == s.graph.runId && o.sys.roles == s.roles
    && root in s.graph.cells && o.sys.graph.cells[root].obligations == s.graph.cells[root].obligations
    && SavesStanding(s.graph.def, root, depth, |s.log|, o.sys.log)
    && (Clean(s) ==> Clean(o.sys))
    && (if o.error == None then DriverInv(o.sys.graph) && Total(o.sys.graph) == Total(s.graph) + 1
        else if o.error == Some(IdempotencyError) && !Clean(s)
        then Total(s.graph) <= Total(o.sys.graph) <= Total(s.graph) + 1
        else DriverInv(o.sys.graph) && Total(o.sys.graph) == Total(s.graph))
  }

  /** A turn that left the driver something to go on with, at every record. */
  ghost predicate TurnedWell(s: Sys, o: SysOutcome, root: Id, depth: nat) {
    Turned(s, o, root, depth) && DriverInv(o.sys.graph) && Tells(s.graph.def, None, |s.log|, o.sys.log)
  }

  lemma StaysThenTurned(s: Sys, s1: Sys, o: SysOutcome, root: Id, depth: nat)
    requires Stays(s, s1, root, depth) && TurnedWell(s1, o, root, depth)
    ensures TurnedWell(s, o, root, depth)
  {
    TellsOn(s.graph.def, None, s.log, s1.log, o.sys.log);
    forall i | |s.log| <= i < |o.sys.log| && o.sys.log[i].Checkpoint?
      ensures Stands(GraphOf(s.graph.def, o.sys.log[i].state.graph), root, depth)
    {
      if i < |s1.log| { assert o.sys.log[i] == s1.log[i]; }
    }
  }

  lemma TellsOn(def: Definition, half: Option<Key>, log: Log, middle: Log, after: Log)
    requires log <= middle <= after && Tells(def, half, |log|, middle) && Tells(def, half, |middle|, after)
    ensures Tells(def, half, |log|, after)
  {
    forall i | |log| <= i < |middle| ensures after[i] == middle[i] {}
  }

  lemma RewriteStands(g: Graph, g': Graph, id: Id, root: Id, depth: nat)
    requires Attached(g) && IsRoot(g, root) && NoDeeperThan(g, depth)
    requires Rewrites(g, g', id) && Advances(g, g', id) && Attached(g')
    ensures IsRoot(g', root) && NoDeeperThan(g', depth)
    ensures g'.cells[root].obligations == g.cells[root].obligations
  {
    forall x | x in g'.cells ensures Shallow(g', x, depth) {
      assert Shallow(g, x, depth);
    }
  }

  lemma SavesOneStanding(s: Sys, t: Sys, root: Id, depth: nat)
    requires Stands(t.graph, root, depth) && t.graph.def == s.graph.def
    requires SavesOnly(t.log, |s.log|, Save(t), Save(t))
    ensures SavesStanding(s.graph.def, root, depth, |s.log|, t.log)
    ensures DriverInv(t.graph) ==> Tells(s.graph.def, None, |s.log|, t.log)
  {
    assert GraphOf(s.graph.def, ToDict(t.graph)) == t.graph;
  }

  /** A recorded or refused single call, as far as the log goes. */
  lemma PerformLogs(s: Sys, op: Op, root: Id, depth: nat)
    requires Running(s, root, depth) && Single(s.graph, op) && Apply(s.graph, op).error == None
    requires Stands(Apply(s.graph, op).graph, root, depth)
    ensures var o := Perform(s, op);
            && LiveSound(s.graph.runId, o.sys) && s.log <= o.sys.log && o.sys.status == Active
            && o.sys.graph == Apply(s.graph, op).graph && o.sys.roles == s.roles
            && o.sys.graph.def == s.graph.def && o.sys.graph.runId == s.graph.runId
            && SavesStanding(s.graph.def, root, depth, |s.log|, o.sys.log)
            && (DriverInv(o.sys.graph) ==> Tells(s.graph.def, None, |s.log|, o.sys.log))
            && (Clean(s) ==> Clean(o.sys))
  {
    var g' := Apply(s.graph, op).graph;
    PerformSound(s.graph.runId, s, op);
    RecordedIff(s.graph.runId, s, op);
    CallMoves(s.graph.runId, s, op);
    PerformSaves(s, op);
    SavesOneStanding(s, Perform(s, op).sys, root, depth);
    if Clean(s) {
      NewerKeepsClean(s, g');
      AppendKeepsClean(s.(graph := g'), KeyOf(op, g'), ContentOf(op, s.graph, g'));
    }
  }

  /** A refused single call, on a clean log, was refused by the graph. */
  lemma CleanIsRecorded(s: Sys, op: Op)
    requires LiveSound(s.graph.runId, s) && Single(s.graph, op) && s.status == Active && !op.RecordPostReview?
    requires Apply(s.graph, op).error == None && Clean(s)
    ensures Perform(s, op).error == None
  {
    RecordedIff(s.graph.runId, s, op);
    CallIsUnsaved(s.graph.runId, s, op);
    var g' := Apply(s.graph, op).graph;
    CleanMeansFree(s, KeyOf(op, g'), ContentOf(op, s.graph, g'));
  }

  lemma RefusedTurn(s: Sys, e: Error, root: Id, depth: nat)
    requires Running(s, root, depth)
    ensures TurnedWell(s, SysOutcome(s, Some(e)), root, depth)
  {}

  /** A call that moves a Cell one phase on, other than a composite review. */
  lemma CallTurns(s: Sys, op: Op, root: Id, depth: nat)
    requires Running(s, root, depth) && OnePhase(op) && op.id in s.graph.cells
    requires op.RecordIntegration? ==> s.graph.Kind(op.id) == Integration
    requires op.RecordPreReview? ==> op.leaf
    ensures TurnedWell(s, Perform(s, op), root, depth)
  {
    var o := Apply(s.graph, op);
    if o.error.Some? {
      RefusalChangesNothing(s.graph, op);
      RefusedTurn(s, o.error.value, root, depth);
    } else {
      CallAdvancesByOne(s.graph, op);
      RewriteStands(s.graph, o.graph, op.id, root, depth);
      PerformLogs(s, op, root, depth);
      RecordedIff(s.graph.runId, s, op);
      if Clean(s) { CleanIsRecorded(s, op); }
    }
  }

  lemma PostReviewStays(s: Sys, op: Op, root: Id, depth: nat)
    requires Running(s, root, depth) && op.RecordPostReview? && op.id in s.graph.cells
    ensures Stays(s, Perform(s, op).sys, root, depth)
  {
    var o := Apply(s.graph, op);
    ReviewedStands(s.graph, op, root, depth);
    if o.error == None { PerformLogs(s, op, root, depth); }
  }

  lemma ReviewedStands(g: Graph, op: Op, root: Id, depth: nat)
    requires DriverInv(g) && IsRoot(g, root) && NoDeeperThan(g, depth) && op.RecordPostReview? && op.id in g.cells
    ensures var g' := Apply(g, op).graph;
            && DriverInv(g') && Stands(g', root, depth) && Total(g') == Total(g)
            && g'.def == g.def && g'.runId == g.runId && root in g.cells && root in g'.cells
            && g'.cells[root].obligations == g.cells[root].obligations
            && (Apply(g, op).error.Some? ==> g' == g)
  {
    var g' := Apply(g, op).graph;
    assert ConsistentAt(g, op.id);
    PostReviewRewrites(g, g.cells[op.id], op.accepted, op.evidence);
    if Apply(g, op).error == None {
      AdvanceKeepsDriverInv(g, g', op.id);
      RewriteTotal(g, g', op.id);
      RewriteStands(g, g', op.id, root, depth);
    }
  }

  lemma PostReviewRefused(s: Sys, o: SysOutcome, root: Id, depth: nat)
    requires Stays(s, o.sys, root, depth) && o.error.Some?
    ensures TurnedWell(s, o, root, depth)
  {}

  lemma CloseFollows(s: Sys, s1: Sys, x: Id, root: Id, depth: nat)
    requires Stays(s, s1, root, depth) && x in s1.graph.cells
    ensures TurnedWell(s, Perform(s1, Op.Close(x)), root, depth)
  {
    CallTurns(s1, Op.Close(x), root, depth);
    StaysThenTurned(s, s1, Perform(s1, Op.Close(x)), root, depth);
  }

  lemma PostReviewCases(s: Sys, x: Id, refs: seq<string>)
    requires s.status == Active
    ensures var refusal, o := ReviewRefusal(s, x), Perform(s, Op.RecordPostReview(x, true, refs));
            var r := ActPostReview(s, x, refs);
            if refusal.Some? then r == SysOutcome(s, refusal)
            else if o.error.Some? then r == o
            else r == Perform(o.sys, Op.Close(x))
  {}

  lemma ReviewedTurns(s: Sys, x: Id, refs: seq<string>, root: Id, depth: nat)
    requires Running(s, root, depth) && x in s.graph.cells
    ensures var o := Perform(s, Op.RecordPostReview(x, true, refs));
            TurnedWell(s, if o.error.Some? then o else Perform(o.sys, Op.Close(x)), root, depth)
  {
    var op := Op.RecordPostReview(x, true, refs);
    var o := Perform(s, op);
    PostReviewStays(s, op, root, depth);
    if o.error.Some? {
      PostReviewRefused(s, o, root, depth);
    } else {
      assert ConsistentAt(s.graph, x);
      PostReviewKeepsCells(s, op);
      CloseFollows(s, o.sys, x, root, depth);
    }
  }

  lemma PostReviewTurns(s: Sys, x: Id, refs: seq<string>, root: Id, depth: nat)
    requires Running(s, root, depth) && x in s.graph.cells
    ensures TurnedWell(s, ActPostReview(s, x, refs), root, depth)
  {
    PostReviewCases(s, x, refs);
    if ReviewRefusal(s, x).Some? {
      RefusedTurn(s, ReviewRefusal(s, x).value, root, depth);
    } else {
      ReviewedTurns(s, x, refs, root, depth);
    }
  }

  lemma PostReviewKeepsCells(s: Sys, op: Op)
    requires op.RecordPostReview? && op.id in s.graph.cells && s.graph.cells[op.id].cellId == op.id
    ensures op.id in Perform(s, op).sys.graph.cells
  {}

  // ------------------------------------------------------- composite reviews

  lemma HalfReviewIsStuck(g: Graph, g': Graph, x: Id)
    requires FirstOpen(g, x) && Rewrites(g, g', x) && HalfReviewed(g', x)
    ensures Stuck(g')
  {
    forall y | Open(g', y) ensures Before(g')(x, y) {
      assert y in g.cells && DepthOf(g', y) == DepthOf(g, y) && DepthOf(g', x) == DepthOf(g, x);
      assert Open(g, y);
      assert Before(g)(x, y);
    }
    NextIsVerdict(g', x);
  }

  /** The graph between the two halves of a composite review. */
  lemma HalfStands(g: Graph, op: Op, root: Id, depth: nat)
    requires DriverInv(g) && IsRoot(g, root) && NoDeeperThan(g, depth)
    requires op.RecordPreReview? && !op.leaf && FirstOpen(g, op.id) && Apply(g, op).error == None
    ensures var g' := Apply(g, op).graph;
            && Stands(g', root, depth) && Stuck(g') && HalfReviewed(g', op.id) && Total(g') == Total(g) + 1
            && g'.cells[root].obligations == g.cells[root].obligations && g'.def == g.def
            && g'.cells[op.id].depth == g.cells[op.id].depth && Rewrites(g, g', op.id)
  {
    CallAdvancesByOne(g, op);
    RewriteStands(g, Apply(g, op).graph, op.id, root, depth);
    HalfReviewIsStuck(g, Apply(g, op).graph, op.id);
  }

  lemma SplitStands(g: Graph, x: Id, children: seq<ChildSpec>, root: Id, depth: nat)
    requires HalfReviewed(g, x) && IsRoot(g, root) && NoDeeperThan(g, depth) && g.cells[x].depth < depth
    requires Apply(g, Op.Decompose(x, children)).error == None
    ensures var g' := Apply(g, Op.Decompose(x, children)).graph;
            && Stands(g', root, depth) && DriverInv(g') && Total(g') == Total(g)
            && g'.cells[root].obligations == g.cells[root].obligations
  {
    var g' := Apply(g, Op.Decompose(x, children)).graph;
    SplitCompletesReview(g, x, children);
    forall id | id in g'.cells ensures Shallow(g', id, depth) {
      if id in g.cells {
        assert Shallow(g, id, depth);
      } else {
        var i :| 0 <= i < |children| && ChildIds(children)[i] == id;
      }
    }
  }

  /** The split of a waiting composite, as far as the log goes. */
  lemma SplitLogs(s: Sys, x: Id, children: seq<ChildSpec>, root: Id, depth: nat)
    requires Standing(s, root, depth) && s.status == Active
    requires Apply(s.graph, Op.Decompose(x, children)).error == None
    requires Stands(Apply(s.graph, Op.Decompose(x, children)).graph, root, depth)
    ensures var o := PerformDecompose(s, x, children);
            && LiveSound(s.graph.runId, o.sys) && s.log <= o.sys.log && o.sys.status == Active
            && o.sys.graph == Apply(s.graph, Op.Decompose(x, children)).graph && o.sys.roles == s.roles
            && o.sys.graph.def == s.graph.def && o.sys.graph.runId == s.graph.runId
            && SavesStanding(s.graph.def, root, depth, |s.log|, o.sys.log)
            && (DriverInv(o.sys.graph) ==> Tells(s.graph.def, None, |s.log|, o.sys.log))
            && (o.error == None || o.error == Some(IdempotencyError))
  {
    DecomposeSound(s.graph.runId, s, x, children);
    SplitRecordedIff(s.graph.runId, s, x, children);
    SplitMoves(s.graph.runId, s, x, children);
    DecomposeSaves(s.graph.runId, s, x, children);
    SavesOneStanding(s, PerformDecompose(s, x, children).sys, root, depth);
  }

  /** On a clean log a split is recorded in full, and the log stays clean. */
  lemma CleanSplit(s: Sys, x: Id, children: seq<ChildSpec>)
    requires LiveSound(s.graph.runId, s) && s.status == Active && Clean(s)
    requires Apply(s.graph, Op.Decompose(x, children)).error == None
    ensures PerformDecompose(s, x, children).error == None && Clean(PerformDecompose(s, x, children).sys)
  {
    var op := Op.Decompose(x, children);
    var g' := Apply(s.graph, op).graph;
    SplitMoves(s.graph.runId, s, x, children);
    SplitRecordedIff(s.graph.runId, s, x, children);
    forall k | k in ChildIds(children) ensures !BirthClashes(s.log, g', k) {
      CleanMeansFree(s, BirthKey(g', k), BirthOf(g', k));
    }
    CleanMeansFree(s, KeyOf(op, g'), ContentOf(op, s.graph, g'));
    StepKeepsInv(s.graph, op);
    NewerKeepsClean(s, g');
    BirthsKeepClean(s.(graph := g'), ChildIds(children));
    AppendKeepsClean(AppendBirths(s.(graph := g'), ChildIds(children)).sys, KeyOf(op, g'), ContentOf(op, s.graph, g'));
  }

  /** Records of a split are under other ids than a review's. */
  lemma SplitKeys(s: Sys, x: Id, children: seq<ChildSpec>, key: Key)
    requires key.OnCell? && (key.topic == PreReviewed || key.topic == PostReviewed)
    ensures var t := PerformDecompose(s, x, children).sys;
            && s.log <= t.log
            && forall i | |s.log| <= i < |t.log| :: t.log[i].key != key
  {
    var op := Op.Decompose(x, children);
    var g' := Apply(s.graph, op).graph;
    var born := AppendBirths(s.(graph := g'), ChildrenIn(g', x));
    BirthsAreNew(s.(graph := g'), ChildrenIn(g', x), key);
    AppendKeys(born.sys, KeyOf(op, g'), ContentOf(op, s.graph, g'));
  }

  /** Both records of an append have its id. */
  lemma AppendKeys(s: Sys, key: Key, payload: Payload)
    ensures var log := Append(s, key, payload).sys.log;
            s.log <= log && forall i | |s.log| <= i < |log| :: log[i].key == key
  {}

  lemma {:induction false} BirthsAreNew(s: Sys, ids: seq<Id>, key: Key)
    requires key.OnCell? && (key.topic == PreReviewed || key.topic == PostReviewed)
    ensures var t := AppendBirths(s, ids).sys;
            && s.log <= t.log
            && forall i | |s.log| <= i < |t.log| :: t.log[i].key != key
  {
    if ids != [] { BirthsAreNew(s, ids[..|ids| - 1], key); }
  }

  /** The checkpoints of the first half are under the review's id. */
  lemma ReviewKeys(s: Sys, op: Op)
    requires Offered(op)
    ensures var t := Perform(s, op).sys;
            && s.log <= t.log
            && forall i | |s.log| <= i < |t.log| :: t.log[i].key == KeyIn(s, op)
  {}

  /** What the two halves leave at every record: waiting under the review's id, and a
      graph to go on with under every other. */
  lemma HalvesTell(s: Sys, op: Op, children: seq<ChildSpec>, root: Id, depth: nat)
    requires Running(s, root, depth) && op.RecordPreReview? && !op.leaf && FirstOpen(s.graph, op.id)
    requires s.graph.cells[op.id].depth < depth && Apply(s.graph, op).error == None
    requires Apply(Apply(s.graph, op).graph, Op.Decompose(op.id, children)).error == None
    requires Perform(s, op).error == None
    ensures Tells(s.graph.def, Some(KeyIn(s, op)), |s.log|,
                  PerformDecompose(Perform(s, op).sys, op.id, children).sys.log)
  {
    var def, key := s.graph.def, KeyIn(s, op);
    var s1 := Perform(s, op).sys;
    var t := PerformDecompose(s1, op.id, children).sys;
    HalfStands(s.graph, op, root, depth);
    PerformLogs(s, op, root, depth);
    RecordedIff(s.graph.runId, s, op);
    PerformSaves(s, op);
    ReviewKeys(s, op);
    assert GraphOf(def, ToDict(s1.graph)) == s1.graph;
    SplitStands(s1.graph, op.id, children, root, depth);
    SplitLogs(s1, op.id, children, root, depth);
    SplitKeys(s1, op.id, children, key);
    TellsOn(def, Some(key), s.log, s1.log, t.log);
  }

  /** After its rehearsal a composite review cannot be refused by the graph: on a clean
      log both halves are recorded, and otherwise only a clash can stop it. */
  lemma CompositeTurns(s: Sys, op: Op, children: seq<ChildSpec>, root: Id, depth: nat)
    requires Running(s, root, depth) && op.RecordPreReview? && !op.leaf && FirstOpen(s.graph, op.id)
    requires s.graph.cells[op.id].depth < depth && Apply(s.graph, op).error == None
    requires Apply(Apply(s.graph, op).graph, Op.Decompose(op.id, children)).error == None
    ensures var reviewed := Perform(s, op);
            var o := if reviewed.error.Some? then reviewed else PerformDecompose(reviewed.sys, op.id, children);
            && Turned(s, o, root, depth) && (Clean(s) ==> o.error == None)
            && (if reviewed.error.Some? then Stuck(o.sys.graph) && o.sys.log == s.log else DriverInv(o.sys.graph))
            && (reviewed.error.Some? <==> Clashes(s.log, KeyIn(s, op), ContentIn(s, op)))
  {
    HalfStands(s.graph, op, root, depth);
    PerformLogs(s, op, root, depth);
    RecordedIff(s.graph.runId, s, op);
    var reviewed := Perform(s, op);
    if Clean(s) { CleanIsRecorded(s, op); }
    if reviewed.error == None {
      SplitStands(reviewed.sys.graph, op.id, children, root, depth);
      SplitLogs(reviewed.sys, op.id, children, root, depth);
      if Clean(s) { CleanSplit(reviewed.sys, op.id, children); }
      SplitFollows(s, reviewed.sys, PerformDecompose(reviewed.sys, op.id, children), root, depth);
    } else {
      ClashWritesNothing(s, op);
    }
  }

  lemma ClashWritesNothing(s: Sys, op: Op)
    requires LiveSound(s.graph.runId, s) && Single(s.graph, op) && s.status == Active && !op.RecordPostReview?
    requires Apply(s.graph, op).error == None && Perform(s, op).error.Some?
    ensures Perform(s, op).sys.log == s.log
  {
    RecordedIff(s.graph.runId, s, op);
    CallIsUnsaved(s.graph.runId, s, op);
    CallMoves(s.graph.runId, s, op);
    var g' := Apply(s.graph, op).graph;
    EventWrites(s.graph.runId, s.graph.def, s.log, s.status, KeyIn(s, op), ContentIn(s, op));
  }

  lemma SplitFollows(s: Sys, s1: Sys, o: SysOutcome, root: Id, depth: nat)
    requires s.log <= s1.log <= o.sys.log && s1.graph.def == s.graph.def
    requires SavesStanding(s.graph.def, root, depth, |s.log|, s1.log)
    requires SavesStanding(s.graph.def, root, depth, |s1.log|, o.sys.log)
    ensures SavesStanding(s.graph.def, root, depth, |s.log|, o.sys.log)
  {
    forall i | |s.log| <= i < |o.sys.log| && o.sys.log[i].Checkpoint?
      ensures Stands(GraphOf(s.graph.def, o.sys.log[i].state.graph), root, depth)
    {
      if i < |s1.log| { assert o.sys.log[i] == s1.log[i]; }
    }
  }

  /** The answer is a split of the Cell that its rehearsal accepted. */
  ghost predicate Splits(s: Sys, x: Id, result: RoleResult) {
    && x in s.graph.cells && s.graph.Kind(x) == PreReview && Acceptable(PreReview, result) && !result.leaf
    && Trial(s.graph, x, false, result.seams, result.children) == None && ReviewRefusal(s, x) == None
  }

  ghost function ReviewOf(x: Id, result: RoleResult): Op
    requires result.SplitReview?
  {
    Op.RecordPreReview(x, true, false, result.seams)
  }

  /** The split's review clashes with an event in the log. */
  ghost predicate HalfClashes(s: Sys, x: Id, result: RoleResult) {
    Splits(s, x, result) && Clashes(s.log, KeyIn(s, ReviewOf(x, result)), ContentIn(s, ReviewOf(x, result)))
  }

  ghost function HalfKey(s: Sys, x: Id, result: RoleResult): Option<Key> {
    if Splits(s, x, result) then Some(KeyIn(s, ReviewOf(x, result))) else None
  }

  /** A turn with everything it says about getting stuck. */
  ghost predicate TurnedAt(s: Sys, o: SysOutcome, x: Id, result: RoleResult, root: Id, depth: nat) {
    && Turned(s, o, root, depth)
    && Tells(s.graph.def, HalfKey(s, x, result), |s.log|, o.sys.log)
    && (if HalfClashes(s, x, result) then Stuck(o.sys.graph) && o.sys.log == s.log else DriverInv(o.sys.graph))
  }

  lemma WellIsAt(s: Sys, o: SysOutcome, x: Id, result: RoleResult, root: Id, depth: nat)
    requires TurnedWell(s, o, root, depth) && !Splits(s, x, result)
    ensures TurnedAt(s, o, x, result, root, depth)
  {}

  lemma SplitTurns(s: Sys, x: Id, result: RoleResult, root: Id, depth: nat)
    requires Running(s, root, depth) && FirstOpen(s.graph, x) && Splits(s, x, result)
    requires s.graph.cells[x].depth < depth
    ensures TurnedAt(s, ActPreReview(s, x, false, result.seams, result.children), x, result, root, depth)
  {
    var op := ReviewOf(x, result);
    SplitIsHalves(s, x, result);
    CompositeTurns(s, op, result.children, root, depth);
    if Perform(s, op).error == None { HalvesTell(s, op, result.children, root, depth); }
  }

  /** The split a rehearsal accepted is its review and, unless that is refused, the split. */
  lemma SplitIsHalves(s: Sys, x: Id, result: RoleResult)
    requires s.status == Active && Splits(s, x, result)
    ensures var reviewed := Perform(s, ReviewOf(x, result));
            ActPreReview(s, x, false, result.seams, result.children)
            == if reviewed.error.Some? then reviewed else PerformDecompose(reviewed.sys, x, result.children)
    ensures var o := Apply(s.graph, ReviewOf(x, result));
            o.error == None && Apply(o.graph, Op.Decompose(x, result.children)).error == None
  {}

  lemma OtherReviewTurns(s: Sys, x: Id, leaf: bool, seams: seq<string>, children: seq<ChildSpec>, root: Id, depth: nat)
    requires Running(s, root, depth) && FirstOpen(s.graph, x)
    requires leaf || Trial(s.graph, x, leaf, seams, children).Some? || ReviewRefusal(s, x).Some?
    ensures TurnedWell(s, ActPreReview(s, x, leaf, seams, children), root, depth)
  {
    var trial := Trial(s.graph, x, leaf, seams, children);
    if trial.Some? {
      RefusedTurn(s, trial.value, root, depth);
    } else if ReviewRefusal(s, x).Some? {
      RefusedTurn(s, ReviewRefusal(s, x).value, root, depth);
    } else {
      CallTurns(s, Op.RecordPreReview(x, true, leaf, seams), root, depth);
    }
  }

  // ------------------------------------------------------------ any turn

  lemma ActIsCall(s: Sys, x: Id, result: RoleResult)
    requires s.status == Active && x in s.graph.cells && Acceptable(s.graph.Kind(x), result)
    requires s.graph.Kind(x) != PreReview && s.graph.Kind(x) != PostReview
    ensures Act(s, x, s.graph.Kind(x), result) == Perform(s, CallFor(x, s.graph.Kind(x), result))
  {}

  lemma OneCallTurns(s: Sys, x: Id, result: RoleResult, root: Id, depth: nat)
    requires Running(s, root, depth) && x in s.graph.cells && Acceptable(s.graph.Kind(x), result)
    requires s.graph.Kind(x) != PreReview && s.graph.Kind(x) != PostReview
    ensures TurnedWell(s, Act(s, x, s.graph.Kind(x), result), root, depth)
  {
    ActIsCall(s, x, result);
    CallIsOnePhase(x, s.graph.Kind(x), result);
    CallTurns(s, CallFor(x, s.graph.Kind(x), result), root, depth);
  }

  lemma CallIsOnePhase(x: Id, kind: Kind, result: RoleResult)
    requires Acceptable(kind, result) && kind != PreReview && kind != PostReview
    ensures var op := CallFor(x, kind, result);
            && OnePhase(op) && op.id == x && !op.RecordPreReview? && (op.RecordIntegration? ==> kind == Integration)
  {}

  lemma ReviewTurns(s: Sys, x: Id, result: RoleResult, root: Id, depth: nat)
    requires Running(s, root, depth) && FirstOpen(s.graph, x) && s.graph.Kind(x) == PreReview
    requires Acceptable(PreReview, result) && (result.SplitReview? ==> s.graph.cells[x].depth < depth)
    ensures TurnedAt(s, Act(s, x, PreReview, result), x, result, root, depth)
  {
    var children := if result.leaf then [] else result.children;
    if Splits(s, x, result) {
      SplitTurns(s, x, result, root, depth);
    } else {
      OtherReviewTurns(s, x, result.leaf, result.seams, children, root, depth);
    }
    assert Act(s, x, PreReview, result) == ActPreReview(s, x, result.leaf, result.seams, children);
  }

  lemma ActTurns(s: Sys, x: Id, result: RoleResult, root: Id, depth: nat)
    requires Running(s, root, depth) && FirstOpen(s.graph, x)
    requires result.SplitReview? ==> s.graph.cells[x].depth < depth
    ensures TurnedAt(s, Act(s, x, s.graph.Kind(x), result), x, result, root, depth)
  {
    var kind := s.graph.Kind(x);
    if !Acceptable(kind, result) {
      RefusedTurn(s, SchemaError, root, depth);
    } else if kind == PreReview {
      ReviewTurns(s, x, result, root, depth);
    } else if kind == PostReview {
      PostReviewTurns(s, x, result.refs, root, depth);
      assert Act(s, x, kind, result) == ActPostReview(s, x, result.refs);
    } else {
      OneCallTurns(s, x, result, root, depth);
    }
  }

  lemma AskTurns(s: Sys, provider: Provider, n: nat, x: Id, root: Id, depth: nat)
    requires Running(s, root, depth) && FirstOpen(s.graph, x) && StopsAt(provider, depth)
    ensures var result := provider(n, Request(s.graph, x));
            TurnedAt(s, Act(s, x, s.graph.Kind(x), result), x, result, root, depth)
  {
    assert Shallow(s.graph, x, depth);
    var request := Request(s.graph, x);
    assert request.cell.depth >= depth ==> !provider(n, request).SplitReview?;
    ActTurns(s, x, provider(n, request), root, depth);
  }

  /** A turn that asked for nothing. */
  lemma UnaskedIsAt(s: Sys, o: SysOutcome, root: Id, depth: nat)
    requires TurnedWell(s, o, root, depth)
    ensures TurnedAt(s, o, "", Malformed, root, depth)
  {
    assert !Splits(s, "", Malformed);
    WellIsAt(s, o, "", Malformed, root, depth);
  }

  lemma IntegrationTurnsWell(s: Sys, x: Id, root: Id, depth: nat)
    requires Running(s, root, depth) && x in s.graph.cells
    ensures TurnedWell(s, Perform(s, Op.BeginIntegration(x)), root, depth)
  {
    CallTurns(s, Op.BeginIntegration(x), root, depth);
  }

  lemma IntegrateTurns(s: Sys, x: Id, root: Id, depth: nat)
    requires Running(s, root, depth) && x in s.graph.cells && s.graph.Kind(x) == Children
    requires s.graph.cells[x].children != [] && ChildrenClosed(s.graph, s.graph.cells[x])
    ensures TurnedAt(s, Perform(s, Op.BeginIntegration(x)), "", Malformed, root, depth)
  {
    IntegrationTurnsWell(s, x, root, depth);
    UnaskedIsAt(s, Perform(s, Op.BeginIntegration(x)), root, depth);
  }

  lemma IntegrationIsRecorded(s: Sys, x: Id, root: Id, depth: nat)
    requires Clean(s) && Running(s, root, depth) && x in s.graph.cells && s.graph.Kind(x) == Children
    requires s.graph.cells[x].children != [] && ChildrenClosed(s.graph, s.graph.cells[x])
    ensures Perform(s, Op.BeginIntegration(x)).error == None
  {
    assert ConsistentAt(s.graph, x);
    BeginIntegrationRewrites(s.graph, s.graph.cells[x]);
    CleanIsRecorded(s, Op.BeginIntegration(x));
  }

  /** The Cell the driver asks about, and the answer it gets; when it integrates
      instead, there is no answer. */
  ghost function AnswerTo(s: Sys, provider: Provider, n: nat): (Id, RoleResult) {
    var next := NextOf(s.graph);
    if next.Ask? && next.id in s.graph.cells then (next.id, provider(n, Request(s.graph, next.id))) else ("", Malformed)
  }

  /** Every driver action, refused or not, of a run that is not stuck. On a clean log
      starting an integration is never refused. */
  lemma StepTurns(s: Sys, provider: Provider, n: nat, root: Id, depth: nat)
    requires Running(s, root, depth) && Open(s.graph, root) && StopsAt(provider, depth)
    ensures NextOf(s.graph).Integrate? || NextOf(s.graph).Ask?
    ensures var (x, result) := AnswerTo(s, provider, n);
            TurnedAt(s, StepOf(s, provider, n), x, result, root, depth)
    ensures NextOf(s.graph).Integrate? && Clean(s) ==> StepOf(s, provider, n).error == None
  {
    var x := DriverNeverDeadlocks(s.graph, root);
    if s.graph.Kind(x) == Children {
      StepIntegrates(s, provider, n, x, root, depth);
    } else {
      StepAsks(s, provider, n, x, root, depth);
    }
  }

  lemma StepIntegrates(s: Sys, provider: Provider, n: nat, x: Id, root: Id, depth: nat)
    requires Running(s, root, depth) && x in s.graph.cells && s.graph.Kind(x) == Children
    requires s.graph.cells[x].children != [] && ChildrenClosed(s.graph, s.graph.cells[x])
    requires NextOf(s.graph) == Integrate(x)
    ensures TurnedAt(s, StepOf(s, provider, n), "", Malformed, root, depth)
    ensures Clean(s) ==> StepOf(s, provider, n).error == None
  {
    StepIsIntegration(s, provider, n, x);
    IntegrateTurns(s, x, root, depth);
    if Clean(s) { IntegrationIsRecorded(s, x, root, depth); }
  }

  lemma StepAsks(s: Sys, provider: Provider, n: nat, x: Id, root: Id, depth: nat)
    requires Running(s, root, depth) && FirstOpen(s.graph, x) && StopsAt(provider, depth)
    requires NextOf(s.graph) == Ask(x)
    ensures var result := provider(n, Request(s.graph, x));
            TurnedAt(s, StepOf(s, provider, n), x, result, root, depth)
  {
    StepIsAct(s, provider, n, x);
    AskTurns(s, provider, n, x, root, depth);
  }

  lemma StepIsIntegration(s: Sys, provider: Provider, n: nat, x: Id)
    requires s.status == Active && NextOf(s.graph) == Integrate(x)
    ensures StepOf(s, provider, n) == Perform(s, Op.BeginIntegration(x))
  {
    assert SysApply(s, Lifecycle(Op.BeginIntegration(x))) == Perform(s, Op.BeginIntegration(x));
  }

  lemma StepIsAct(s: Sys, provider: Provider, n: nat, x: Id)
    requires s.status == Active && NextOf(s.graph) == Ask(x) && x in s.graph.cells
    ensures StepOf(s, provider, n) == Act(s, x, s.graph.Kind(x), provider(n, Request(s.graph, x)))
  {}

  lemma StuckStep(s: Sys, provider: Provider, n: nat)
    requires Stuck(s.graph)
    ensures StepOf(s, provider, n) == SysOutcome(s, Some(SchemaError))
  {}

  /** Parking after a refusal, whatever state the refusal left. */
  lemma ParkStands(s: Sys, reason: string, root: Id, depth: nat)
    requires Standing(s, root, depth) && s.status == Active && reason != ""
    ensures var o := ParkRun(s, reason);
            && o.error == None && o.sys.status == Parked && o.sys.graph == s.graph && o.sys.roles == s.roles
            && Standing(o.sys, root, depth) && s.log <= o.sys.log && AllSaved(o.sys)
            && SavesStanding(s.graph.def, root, depth, |s.log|, o.sys.log)
            && (Clean(s) ==> Clean(o.sys))
  {
    StatusSound(s.graph.runId, s, Parked, reason);
    var s' := s.(status := Parked);
    AppendSaves(s', AtLength(Parked, |s.log|), StatusChanged(Parked, reason));
    SavesOneStanding(s, ParkRun(s, reason).sys, root, depth);
    if Clean(s) {
      NewerKeepsClean(s, s.graph);
      AppendKeepsClean(s', AtLength(Parked, |s.log|), StatusChanged(Parked, reason));
    }
  }

  // -------------------------------------------------------------- the start

  lemma FreshRootStands(runId: string, def: Definition, op: Op, depth: nat)
    requires WellShaped(def) && op.CreateRoot? && Apply(Fresh(runId, def), op).error == None
    ensures var g := Apply(Fresh(runId, def), op).graph;
            && DriverInv(g) && Stands(g, op.id, depth) && Total(g) == 0 && Open(g, op.id)
            && g.def == def && g.runId == runId && g.cells[op.id].obligations == op.obligations
  {
    var g := Apply(Fresh(runId, def), op).graph;
    ForwardStep(Fresh(runId, def), op);
    assert g.cells.Keys == {op.id};
    assert AttachedAt(g, op.id) && Populated(g, op.id) && Shallow(g, op.id, depth);
    SumConstant(g.cells.Keys, ProgressIn(g), 0);
  }

  lemma StartIsClean(g: Graph, roles: set<string>)
    ensures Clean(Created(g, roles))
  {}

  /** A system just created and given its root is where a driver can start. */
  lemma FreshRootRuns(runId: string, def: Definition, roles: set<string>, root: Id, refs: References,
                      obligations: seq<Id>, depth: nat)
    requires WellShaped(def)
    ensures var o := SysApply(Created(Fresh(runId, def), roles), Lifecycle(Op.CreateRoot(root, refs, obligations, [])));
            && (o.error == None <==> obligations != [] && Distinct(obligations))
            && (o.error == None ==>
                  && Running(o.sys, root, depth) && Clean(o.sys) && AllSaved(o.sys)
                  && Total(o.sys.graph) == 0 && Open(o.sys.graph, root)
                  && o.sys.graph.cells[root].obligations == obligations && |SetOf(obligations)| == |obligations|)
  {
    CreateIsPerform(Created(Fresh(runId, def), roles), Op.CreateRoot(root, refs, obligations, []));
    if obligations != [] && Distinct(obligations) { GoodRootRuns(runId, def, roles, root, refs, obligations, depth); }
  }

  lemma CreateIsPerform(s: Sys, op: Op)
    requires op.CreateRoot?
    ensures SysApply(s, Lifecycle(op)) == Perform(s, op)
    ensures op.obligations == [] || !Distinct(op.obligations) ==> Perform(s, op).error.Some?
  {}

  lemma GoodRootRuns(runId: string, def: Definition, roles: set<string>, root: Id, refs: References,
                     obligations: seq<Id>, depth: nat)
    requires WellShaped(def) && obligations != [] && Distinct(obligations)
    ensures var o := Perform(Created(Fresh(runId, def), roles), Op.CreateRoot(root, refs, obligations, []));
            && o.error == None && Running(o.sys, root, depth) && Clean(o.sys) && AllSaved(o.sys)
            && Total(o.sys.graph) == 0 && Open(o.sys.graph, root)
            && o.sys.graph.cells[root].obligations == obligations && |SetOf(obligations)| == |obligations|
  {
    var op := Op.CreateRoot(root, refs, obligations, []);
    CreatedSound(runId, def, roles);
    FreshRootStands(runId, def, op, depth);
    DistinctSize(obligations);
    FirstRecord(Created(Fresh(runId, def), roles), op);
  }

  lemma FirstRecord(s: Sys, op: Op)
    requires LiveSound(s.graph.runId, s) && s == Created(s.graph, s.roles) && op.CreateRoot?
    requires Apply(s.graph, op).error == None
    ensures var o := Perform(s, op);
            && o.error == None && Clean(o.sys) && AllSaved(o.sys) && LiveSound(s.graph.runId, o.sys)
            && o.sys.graph == Apply(s.graph, op).graph && o.sys.status == Active
  {
    var g' := Apply(s.graph, op).graph;
    PerformSound(s.graph.runId, s, op);
    StartIsClean(s.graph, s.roles);
    CleanIsRecorded(s, op);
    RecordedIff(s.graph.runId, s, op);
    CallMoves(s.graph.runId, s, op);
    NewerKeepsClean(s, g');
    AppendKeepsClean(s.(graph := g'), KeyOf(op, g'), ContentOf(op, s.graph, g'));
  }
}
