/** When the driver cannot go on: exactly in which runs every answer of every role is
    refused, that it stays so for good, and which crashes lead there. */
module DriverBlocks {
  import opened Basics
  import opened Workflow
  import opened GraphInvariant
  import opened Closure
  import opened Counting
  import opened System
  import opened History
  import opened DriverSteps
  import opened DriverRun
  import opened Recovery
  import opened DriverRecovery
  import opened Redo
  import opened DriverTracks

  // ---------- dead ends ----------

  /** No answer of any provider makes the driver's action succeed. */
  ghost predicate Blocked(s: Sys) {
    forall provider: Provider, n: nat {:trigger StepOf(s, provider, n)} :: StepOf(s, provider, n).error.Some?
  }

  /** A review phase without a role, or with one that asks for a job. */
  predicate Hindered(s: Sys, x: Id) {
    && x in s.graph.cells && (s.graph.Kind(x) == PreReview || s.graph.Kind(x) == PostReview)
    && ReviewRefusal(s, x).Some?
  }

  function ReviewKey(g: Graph, x: Id): Key
    requires x in g.cells
  {
    OnCell(PostReviewed, x, g.cells[x].revision)
  }

  /** The Cell's post-review has its checkpoint, and the Cell was not closed after it. */
  ghost predicate Unclosed(s: Sys, x: Id) {
    x in s.graph.cells && s.graph.Kind(x) == PostReview && !Unsaved(s.log, ReviewKey(s.graph, x))
  }

  /** The next review is one no role can give. */
  predicate Unmanned(s: Sys) {
    var next := NextOf(s.graph);
    next.Ask? && Hindered(s, next.id)
  }

  /** What can be seen of a run before the driver takes it up. */
  ghost predicate DeadEnd(s: Sys) {
    var next := NextOf(s.graph);
    next == Undecomposed || Unmanned(s) || (next.Ask? && Unclosed(s, next.id))
  }

  // ---------- what the log holds of the next call ----------

  function TopicFor(kind: Kind): Topic {
    match kind
    case Contract => ContractAccepted
    case Tests => Topic.TestsFrozen
    case Plan => PlanRecorded
    case PreReview => PreReviewed
    case Children => IntegrationStarted
    case Implementation => VerificationRecorded
    case Integration => IntegrationRecorded
    case PostReview => PostReviewed
    case _ => CellClosed
  }

  function NextKey(g: Graph, x: Id): Key
    requires x in g.cells
  {
    var topic := TopicFor(g.Kind(x));
    OnCell(topic, x, g.cells[x].revision + Ahead(topic))
  }

  /** What an event under the id says, if the log has one. */
  ghost function Noted(log: Log, key: Key): Option<Payload> {
    if q :| q in log && q.Event? && q.key == key then Some(q.payload) else None
  }

  lemma NotedOnly(log: Log, key: Key, payload: Payload)
    requires UniqueIds(log)
    ensures Clashes(log, key, payload) <==> Noted(log, key).Some? && Noted(log, key).value != payload
  {
    if Noted(log, key).Some? { OnlyEventWith(log, Event(key, Noted(log, key).value)); }
    if Noted(log, key) == Some(payload) { OnlyEventWith(log, Event(key, payload)); }
  }

  lemma NotedIsRedoable(s: Sys, key: Key)
    requires Settled(s) && key.OnCell? && key.cellId in s.graph.cells
    requires key.revision == s.graph.cells[key.cellId].revision + Ahead(key.topic) && Noted(s.log, key).Some?
    ensures Redoable(s.graph.def, s.graph.cells[key.cellId], key.topic, Noted(s.log, key).value)
  {
    var q := Event(key, Noted(s.log, key).value);
    var i :| 0 <= i < |s.log| && s.log[i] == q;
    EventIsNear(s.graph.def, s.log, i);
  }

  lemma KeyIsNext(g: Graph, op: Op)
    requires Inv(g) && Equipped(g) && Recordable(g, op) && Apply(g, op).error == None
    ensures KeyOf(op, Apply(g, op).graph) == OnCell(TopicOf(op), op.id, g.cells[op.id].revision + Ahead(TopicOf(op)))
  {
    CallFollows(g, op);
  }

  /** A recordable call succeeds exactly if the log does not say otherwise. */
  lemma RecordsIff(s: Sys, op: Op)
    requires Settled(s) && LiveSound(s.graph.runId, s) && s.status == Active && Recordable(s.graph, op)
    requires Apply(s.graph, op).error == None
    ensures var noted := Noted(s.log, KeyIn(s, op));
            Perform(s, op).error == None <==>
              (noted.Some? ==> noted.value == ContentIn(s, op)) && Unsaved(s.log, KeyIn(s, op))
    ensures !op.RecordPostReview? ==> Unsaved(s.log, KeyIn(s, op))
    ensures Perform(s, op).sys == s.(graph := Apply(s.graph, op).graph, log := Perform(s, op).sys.log)
  {
    DrivenIsSingle(s.graph, op);
    RecordedIff(s.graph.runId, s, op);
    NotedOnly(s.log, KeyIn(s, op), ContentIn(s, op));
  }

  /** A call that moves its Cell, and repeats what the log may have of it. */
  ghost predicate Repeats(s: Sys, op: Op) {
    && Recordable(s.graph, op) && !op.RecordPostReview? && Apply(s.graph, op).error == None
    && var noted := Noted(s.log, OnCell(TopicOf(op), op.id, s.graph.cells[op.id].revision + 1));
       noted.Some? ==> noted.value == ContentIn(s, op)
  }

  lemma RepeatedSucceeds(s: Sys, op: Op)
    requires Settled(s) && LiveSound(s.graph.runId, s) && s.status == Active && Repeats(s, op)
    ensures Perform(s, op).error == None && LiveSound(s.graph.runId, Perform(s, op).sys)
    ensures Perform(s, op).sys == s.(graph := Apply(s.graph, op).graph, log := Perform(s, op).sys.log)
  {
    KeyIsNext(s.graph, op);
    RecordsIff(s, op);
    DrivenIsSingle(s.graph, op);
    PerformSound(s.graph.runId, s, op);
  }

  // ---------- an answer that can be recorded ----------

  predicate OneCall(kind: Kind) {
    kind in {Contract, Tests, Plan, Implementation, Integration}
  }

  /** An answer any Cell in this phase accepts. */
  function AnswerOf(kind: Kind, c: Cell): RoleResult {
    match kind
    case Contract => Acceptance(true)
    case Tests => FrozenTests("visible", "holdout", map o | o in c.obligations :: ["test"], true)
    case Plan => RoleResult.Planned("plan", map o | o in c.obligations :: "owner")
    case PreReview => LeafReview(true, true, [])
    case PostReview => ResultReview(true, ["evidence"])
    case _ => Verification(true, ["evidence"])
  }

  /** The answer that records the same again. */
  function SameAgain(kind: Kind, payload: Payload): RoleResult {
    match payload
    case Tested(b) => FrozenTests(b.visible, b.holdout, b.obligationMap, true)
    case Planned(d, r) => RoleResult.Planned(d, r)
    case WithEvidence(evidence) =>
      if kind == PostReview then ResultReview(true, evidence) else Verification(true, evidence)
    case _ => Acceptance(true)
  }

  /** The answer becomes a call the graph accepts, and records what the log has. */
  ghost predicate Suits(g: Graph, c: Cell, kind: Kind, result: RoleResult, noted: Option<Payload>) {
    && OneCall(kind) && Acceptable(kind, result)
    && var op := CallFor(c.cellId, kind, result);
       var o := Apply(g, op);
       && o.error == None && TopicOf(op) == TopicFor(kind)
       && (noted.Some? ==> ContentOf(op, g, o.graph) == noted.value)
  }

  lemma ContractAnswerSuits(g: Graph, c: Cell, noted: Option<Payload>)
    requires Sound(g, c) && g.def.KindOf(c.phase) == Contract
    requires noted.Some? ==> Redoable(g.def, c, ContractAccepted, noted.value)
    ensures Suits(g, c, Contract, Acceptance(true), noted)
  {
    TransitionEnters(g, c, "accepted", Tests);
  }

  lemma TestsAnswerSuits(g: Graph, c: Cell, b: TestBasis)
    requires Sound(g, c) && g.def.KindOf(c.phase) == Tests && b.executable && GoodBasis(c, b)
    ensures Suits(g, c, Tests, FrozenTests(b.visible, b.holdout, b.obligationMap, true), Some(Tested(b)))
  {
    TransitionEnters(Put(g, Frozen(c, b), "tests.frozen"), Frozen(c, b), "frozen", Plan);
  }

  lemma PlanAnswerSuits(g: Graph, c: Cell, digest: string, r: map<Id, string>)
    requires Sound(g, c) && g.def.KindOf(c.phase) == Plan && EquippedCell(Plan, c)
    requires r.Keys == SetOf(c.obligations) && forall o | o in r :: r[o] != ""
    ensures Suits(g, c, Plan, RoleResult.Planned(digest, r), Some(Payload.Planned(digest, r)))
  {
    var c1 := c.(planDigest := Some(digest), responsibilities := r);
    TransitionEnters(Put(g, c1, "plan.recorded"), c1, "planned", PreReview);
  }

  lemma EarlyAnswerSuits(g: Graph, c: Cell)
    requires Sound(g, c) && g.def.KindOf(c.phase) in {Contract, Tests, Plan} && EquippedCell(g.def.KindOf(c.phase), c)
    ensures var kind := g.def.KindOf(c.phase); Suits(g, c, kind, AnswerOf(kind, c), None)
  {
    match g.def.KindOf(c.phase)
    case Contract => ContractAnswerSuits(g, c, None);
    case Tests => TestsAnswerSuits(g, c, TestBasis("visible", "holdout", map o | o in c.obligations :: ["test"], true));
    case Plan => PlanAnswerSuits(g, c, "plan", map o | o in c.obligations :: "owner");
    case _ =>
  }

  lemma EarlyAnswerAgain(g: Graph, c: Cell, payload: Payload)
    requires Sound(g, c) && g.def.KindOf(c.phase) in {Contract, Tests, Plan} && EquippedCell(g.def.KindOf(c.phase), c)
    requires Redoable(g.def, c, TopicFor(g.def.KindOf(c.phase)), payload)
    ensures var kind := g.def.KindOf(c.phase); Suits(g, c, kind, SameAgain(kind, payload), Some(payload))
  {
    match g.def.KindOf(c.phase)
    case Contract => ContractAnswerSuits(g, c, Some(payload));
    case Tests => TestsAnswerSuits(g, c, payload.basis);
    case Plan => PlanAnswerSuits(g, c, payload.planDigest, payload.responsibilities);
    case _ =>
  }

  lemma VerificationSuits(g: Graph, c: Cell, evidence: seq<string>)
    requires Sound(g, c) && g.def.KindOf(c.phase) == Implementation && EquippedCell(Implementation, c)
    requires evidence != [] && Strings(evidence)
    ensures Suits(g, c, Implementation, Verification(true, evidence), Some(WithEvidence(evidence)))
  {
    NothingMissingIsReady(c);
    var c1 := c.(verificationPassed := true);
    TransitionEnters(Put(g, c1, "verification.recorded"), c1, "verified", PostReview);
  }

  lemma LateAnswerSuits(g: Graph, c: Cell, evidence: seq<string>)
    requires Sound(g, c) && g.def.KindOf(c.phase) in {Implementation, Integration}
    requires EquippedCell(g.def.KindOf(c.phase), c) && evidence != [] && Strings(evidence)
    ensures Suits(g, c, g.def.KindOf(c.phase), Verification(true, evidence), Some(WithEvidence(evidence)))
  {
    if g.def.KindOf(c.phase) == Implementation {
      VerificationSuits(g, c, evidence);
    } else {
      IntegratedRewrites(g, c);
    }
  }

  /** In the phases of one call there is always an answer that goes through. */
  lemma SomeCallSucceeds(s: Sys, x: Id) returns (result: RoleResult)
    requires Settled(s) && LiveSound(s.graph.runId, s) && s.status == Active
    requires x in s.graph.cells && OneCall(s.graph.Kind(x))
    ensures Act(s, x, s.graph.Kind(x), result).error == None
    ensures Noted(s.log, NextKey(s.graph, x)) == None ==> result == AnswerOf(s.graph.Kind(x), s.graph.cells[x])
  {
    var g, c, kind := s.graph, s.graph.cells[x], s.graph.Kind(x);
    var noted := Noted(s.log, NextKey(g, x));
    assert ConsistentAt(g, x) && EquippedAt(g, x);
    if noted.Some? {
      NotedIsRedoable(s, NextKey(g, x));
      result := SameAgain(kind, noted.value);
      if kind in {Contract, Tests, Plan} {
        EarlyAnswerAgain(g, c, noted.value);
      } else {
        LateAnswerSuits(g, c, noted.value.evidence);
      }
    } else {
      result := AnswerOf(kind, c);
      if kind in {Contract, Tests, Plan} { EarlyAnswerSuits(g, c); } else { LateAnswerSuits(g, c, ["evidence"]); }
    }
    SuitableSucceeds(s, x, result);
  }

  lemma SuitableRepeats(s: Sys, x: Id, result: RoleResult)
    requires x in s.graph.cells && s.graph.cells[x].cellId == x
    requires Suits(s.graph, s.graph.cells[x], s.graph.Kind(x), result, Noted(s.log, NextKey(s.graph, x)))
    ensures Repeats(s, CallFor(x, s.graph.Kind(x), result))
  {
    AnswerIsRecordable(s.graph, x, result);
  }

  lemma SuitableSucceeds(s: Sys, x: Id, result: RoleResult)
    requires Settled(s) && LiveSound(s.graph.runId, s) && s.status == Active && x in s.graph.cells
    requires Suits(s.graph, s.graph.cells[x], s.graph.Kind(x), result, Noted(s.log, NextKey(s.graph, x)))
    ensures Act(s, x, s.graph.Kind(x), result).error == None
  {
    assert ConsistentAt(s.graph, x);
    SuitableRepeats(s, x, result);
    ActIsCall(s, x, result);
    RepeatedSucceeds(s, CallFor(x, s.graph.Kind(x), result));
  }

  lemma BeginningIsAccepted(g: Graph, x: Id)
    requires Inv(g) && x in g.cells && g.Kind(x) == Children
    requires g.cells[x].children != [] && ChildrenClosed(g, g.cells[x])
    ensures var op := Op.BeginIntegration(x);
            Apply(g, op).error == None && ContentOf(op, g, Apply(g, op).graph) == WithChildren(g.cells[x].children)
  {
    assert ConsistentAt(g, x);
    BeginIntegrationRewrites(g, g.cells[x]);
  }

  lemma IntegrationRepeats(s: Sys, x: Id)
    requires Settled(s) && Inv(s.graph) && x in s.graph.cells && s.graph.Kind(x) == Children
    requires s.graph.cells[x].children != [] && ChildrenClosed(s.graph, s.graph.cells[x])
    ensures Repeats(s, Op.BeginIntegration(x))
  {
    BeginningIsAccepted(s.graph, x);
    var key := OnCell(IntegrationStarted, x, s.graph.cells[x].revision + 1);
    if Noted(s.log, key).Some? { NotedIsRedoable(s, key); }
  }

  lemma IntegrationSucceeds(s: Sys, x: Id)
    requires Settled(s) && LiveSound(s.graph.runId, s) && s.status == Active && x in s.graph.cells
    requires s.graph.Kind(x) == Children && s.graph.cells[x].children != []
    requires ChildrenClosed(s.graph, s.graph.cells[x])
    ensures Perform(s, Op.BeginIntegration(x)).error == None
  {
    IntegrationRepeats(s, x);
    RepeatedSucceeds(s, Op.BeginIntegration(x));
  }

  // ---------- reviews ----------

  /** A pre-review the graph accepts, with what it would record. */
  lemma ReviewIsNext(g: Graph, x: Id, leaf: bool, seams: seq<string>)
    requires Inv(g) && Equipped(g) && x in g.cells && g.Kind(x) == PreReview && Strings(seams)
    requires if leaf then seams == [] else Splittable(g.cells[x])
    ensures var op := Op.RecordPreReview(x, true, leaf, seams);
            && Recordable(g, op) && Apply(g, op).error == None
            && KeyOf(op, Apply(g, op).graph) == NextKey(g, x)
            && x in Apply(g, op).graph.cells
            && Apply(g, op).graph.cells[x].revision == g.cells[x].revision + 1
  {
    var op := Op.RecordPreReview(x, true, leaf, seams);
    var c := g.cells[x];
    assert ConsistentAt(g, x);
    var c1 := c.(preReviewAccepted := true, leaf := Some(leaf), seams := seams);
    TransitionEnters(Put(g, c1, "pre_review.recorded"), c1, if leaf then "leaf" else "composite",
                     if leaf then Implementation else Children);
    KeyIsNext(g, op);
  }

  lemma ReviewIsRecorded(s: Sys, x: Id, leaf: bool, seams: seq<string>)
    requires Settled(s) && LiveSound(s.graph.runId, s) && s.status == Active
    requires x in s.graph.cells && s.graph.Kind(x) == PreReview && Strings(seams)
    requires if leaf then seams == [] else Splittable(s.graph.cells[x])
    requires var noted := Noted(s.log, NextKey(s.graph, x)); noted.Some? ==> noted.value == Reviewed(leaf, seams)
    ensures var op := Op.RecordPreReview(x, true, leaf, seams);
            var o := Perform(s, op);
            && o.error == None && LiveSound(s.graph.runId, o.sys)
            && o.sys == s.(graph := Apply(s.graph, op).graph, log := o.sys.log)
  {
    var op := Op.RecordPreReview(x, true, leaf, seams);
    ReviewIsNext(s.graph, x, leaf, seams);
    assert Repeats(s, op);
    RepeatedSucceeds(s, op);
  }

  /** A leaf review goes through unless the log has a split there. */
  lemma LeafReviewSucceeds(s: Sys, x: Id)
    requires Settled(s) && LiveSound(s.graph.runId, s) && s.status == Active
    requires x in s.graph.cells && s.graph.Kind(x) == PreReview && ReviewRefusal(s, x) == None
    requires var noted := Noted(s.log, NextKey(s.graph, x)); noted.Some? ==> noted.value == Reviewed(true, [])
    ensures Act(s, x, PreReview, LeafReview(true, true, [])).error == None
  {
    ReviewIsNext(s.graph, x, true, []);
    ReviewIsRecorded(s, x, true, []);
    assert Act(s, x, PreReview, LeafReview(true, true, [])) == ActPreReview(s, x, true, [], []);
  }

  /** One child that takes over everything. */
  function OnlyChild(c: Cell, id: Id): ChildSpec {
    ChildSpec(id, c.obligations, "owner", c.scope + ["part"], Some("contract"))
  }

  lemma OnlyChildSplits(g: Graph, c: Cell, id: Id)
    requires c.obligations != [] && id !in g.cells
    ensures GoodSplit(g, c, [OnlyChild(c, id)])
  {
    var children := [OnlyChild(c, id)];
    assert c.scope <= children[0].scope;
    assert GoodChild(c, children[0]);
    forall o | o in c.obligations ensures o in Covered(children) { assert o in children[0].obligations; }
  }

  /** The rehearsal of a split with the one child. */
  lemma SplitIsRehearsed(g: Graph, x: Id, seams: seq<string>, id: Id)
    requires Inv(g) && x in g.cells && g.Kind(x) == PreReview && id !in g.cells
    ensures var op := Op.RecordPreReview(x, true, false, seams);
            var split := Op.Decompose(x, [OnlyChild(g.cells[x], id)]);
            Apply(g, op).error == None && Apply(Apply(g, op).graph, split).error == None
  {
    var c := g.cells[x];
    assert ConsistentAt(g, x) && Placed(g, x);
    var c1 := c.(preReviewAccepted := true, leaf := Some(false), seams := seams);
    TransitionEnters(Put(g, c1, "pre_review.recorded"), c1, "composite", Children);
    var g' := Apply(g, Op.RecordPreReview(x, true, false, seams)).graph;
    OnlyChildSplits(g', g'.cells[x], id);
    assert OnlyChild(c, id) == OnlyChild(g'.cells[x], id);
  }

  ghost predicate Unheard(log: Log, id: Id) {
    forall q | q in log && q.key.OnCell? :: q.key.cellId != id
  }

  lemma {:induction false} LongerThanAll(ids: set<Id>) returns (id: Id)
    ensures id != "" && forall k | k in ids :: |k| < |id|
  {
    if ids == {} {
      id := "x";
    } else {
      var k :| k in ids;
      var longest := LongerThanAll(ids - {k});
      id := longest + k;
      forall j | j in ids ensures |j| < |id| {
        if j != k { assert j in ids - {k}; }
      }
    }
  }

  /** There is always an id no Cell and no record has. */
  lemma UnheardExists(g: Graph, log: Log) returns (id: Id)
    ensures id != "" && id !in g.cells && Unheard(log, id)
  {
    var named := set q | q in log && q.key.OnCell? :: q.key.cellId;
    id := LongerThanAll(g.cells.Keys + named);
    forall q | q in log && q.key.OnCell? ensures q.key.cellId != id { assert q.key.cellId in named; }
  }

  /** At a Cell's pre-review the log holds nothing of its split yet. */
  lemma SplitIsUnheard(s: Sys, x: Id)
    requires Settled(s) && x in s.graph.cells
    ensures Noted(s.log, OnCell(CellSplit, x, s.graph.cells[x].revision + 2)) == None
  {
    var key := OnCell(CellSplit, x, s.graph.cells[x].revision + 2);
    if Noted(s.log, key).Some? {
      var i :| 0 <= i < |s.log| && s.log[i].Event? && s.log[i].key == key;
      EventIsNear(s.graph.def, s.log, i);
      assert false;
    }
  }

  /** The graph accepts the split, and no record names the child or the split. */
  ghost predicate SplitDue(s: Sys, x: Id, spec: ChildSpec) {
    && LiveSound(s.graph.runId, s) && s.status == Active && x in s.graph.cells
    && Apply(s.graph, Op.Decompose(x, [spec])).error == None && Unheard(s.log, spec.cellId)
    && Noted(s.log, OnCell(CellSplit, x, s.graph.cells[x].revision + 1)) == None
  }

  lemma SecondHalfSucceeds(s: Sys, x: Id, spec: ChildSpec)
    requires SplitDue(s, x, spec)
    ensures PerformDecompose(s, x, [spec]).error == None
  {
    var op := Op.Decompose(x, [spec]);
    var g' := Apply(s.graph, op).graph;
    SplitMoves(s.graph.runId, s, x, [spec]);
    SplitRecordedIff(s.graph.runId, s, x, [spec]);
    NotedOnly(s.log, KeyOf(op, g'), ContentOf(op, s.graph, g'));
    assert KeyOf(op, g') == OnCell(CellSplit, x, s.graph.cells[x].revision + 1);
    forall k | k in ChildIds([spec]) ensures !BirthClashes(s.log, g', k) { assert k == spec.cellId; }
  }

  /** The first half writes nothing but its own two records. */
  lemma FirstHalfKeeps(s: Sys, op: Op, x: Id, id: Id)
    requires op.RecordPreReview? && op.id != id && Unheard(s.log, id) && x in s.graph.cells
    requires Noted(s.log, OnCell(CellSplit, x, s.graph.cells[x].revision + 2)) == None
    ensures Unheard(Perform(s, op).sys.log, id)
    ensures Noted(Perform(s, op).sys.log, OnCell(CellSplit, x, s.graph.cells[x].revision + 2)) == None
  {
    ReviewKeys(s, op);
    var log := Perform(s, op).sys.log;
    forall q | q in log && q.key.OnCell? ensures q.key.cellId != id {
      var i :| 0 <= i < |log| && log[i] == q;
      assert i < |s.log| ==> log[i] == s.log[i];
    }
    forall q | q in log && q.Event? ensures q.key != OnCell(CellSplit, x, s.graph.cells[x].revision + 2) {
      var i :| 0 <= i < |log| && log[i] == q;
      assert i < |s.log| ==> log[i] == s.log[i];
    }
  }

  /** The graph accepts both halves, and no record names the child or the split. */
  ghost predicate SplitReady(s: Sys, x: Id, seams: seq<string>, spec: ChildSpec) {
    && x in s.graph.cells && Splittable(s.graph.cells[x]) && Strings(seams) && GoodChildSpec(spec)
    && spec.cellId !in s.graph.cells && Unheard(s.log, spec.cellId)
    && Noted(s.log, OnCell(CellSplit, x, s.graph.cells[x].revision + 2)) == None
    && var o := Apply(s.graph, Op.RecordPreReview(x, true, false, seams));
       o.error == None && Apply(o.graph, Op.Decompose(x, [spec])).error == None
  }

  /** What the second half finds. */
  lemma HalfLeaves(s: Sys, x: Id, seams: seq<string>, spec: ChildSpec)
    requires Settled(s) && LiveSound(s.graph.runId, s) && s.status == Active && SplitReady(s, x, seams, spec)
    requires s.graph.Kind(x) == PreReview && Noted(s.log, NextKey(s.graph, x)) == Some(Reviewed(false, seams))
    ensures var o := Perform(s, Op.RecordPreReview(x, true, false, seams));
            o.error == None && SplitDue(o.sys, x, spec)
  {
    var op := Op.RecordPreReview(x, true, false, seams);
    ReviewIsNext(s.graph, x, false, seams);
    ReviewIsRecorded(s, x, false, seams);
    FirstHalfKeeps(s, op, x, spec.cellId);
    StepKeepsNames(s.graph, op);
  }

  lemma ReadySplitSucceeds(s: Sys, x: Id, seams: seq<string>, spec: ChildSpec)
    requires Settled(s) && LiveSound(s.graph.runId, s) && s.status == Active && SplitReady(s, x, seams, spec)
    requires s.graph.Kind(x) == PreReview && Noted(s.log, NextKey(s.graph, x)) == Some(Reviewed(false, seams))
    requires ReviewRefusal(s, x) == None
    ensures Act(s, x, PreReview, SplitReview(true, false, seams, [spec])).error == None
  {
    HalfLeaves(s, x, seams, spec);
    SecondHalfSucceeds(Perform(s, Op.RecordPreReview(x, true, false, seams)).sys, x, spec);
    HalvesAreAct(s, x, seams, [spec]);
  }

  lemma SplitGetsReady(s: Sys, x: Id, seams: seq<string>) returns (spec: ChildSpec)
    requires Settled(s) && Inv(s.graph) && x in s.graph.cells && s.graph.Kind(x) == PreReview
    requires Splittable(s.graph.cells[x]) && Strings(seams)
    ensures SplitReady(s, x, seams, spec)
  {
    var id := UnheardExists(s.graph, s.log);
    spec := OnlyChild(s.graph.cells[x], id);
    assert Placed(s.graph, x);
    SplitIsRehearsed(s.graph, x, seams, id);
    SplitIsUnheard(s, x);
  }

  /** Where the log has a split review, one with its seams goes through. */
  lemma SplitSucceeds(s: Sys, x: Id, seams: seq<string>) returns (result: RoleResult)
    requires Settled(s) && LiveSound(s.graph.runId, s) && s.status == Active
    requires x in s.graph.cells && s.graph.Kind(x) == PreReview && ReviewRefusal(s, x) == None
    requires Noted(s.log, NextKey(s.graph, x)) == Some(Reviewed(false, seams))
    ensures Act(s, x, PreReview, result).error == None
  {
    NotedIsRedoable(s, NextKey(s.graph, x));
    var spec := SplitGetsReady(s, x, seams);
    result := SplitReview(true, false, seams, [spec]);
    ReadySplitSucceeds(s, x, seams, spec);
  }

  lemma HalvesAreAct(s: Sys, x: Id, seams: seq<string>, children: seq<ChildSpec>)
    requires s.status == Active && ReviewRefusal(s, x) == None
    requires Acceptable(PreReview, SplitReview(true, false, seams, children))
    requires Perform(s, Op.RecordPreReview(x, true, false, seams)).error == None
    requires var o := Apply(s.graph, Op.RecordPreReview(x, true, false, seams));
             o.error == None && Apply(o.graph, Op.Decompose(x, children)).error == None
    ensures Act(s, x, PreReview, SplitReview(true, false, seams, children))
            == PerformDecompose(Perform(s, Op.RecordPreReview(x, true, false, seams)).sys, x, children)
  {}

  lemma SomePreReviewSucceeds(s: Sys, x: Id) returns (result: RoleResult)
    requires Settled(s) && LiveSound(s.graph.runId, s) && s.status == Active
    requires x in s.graph.cells && s.graph.Kind(x) == PreReview && ReviewRefusal(s, x) == None
    ensures Act(s, x, PreReview, result).error == None
    ensures Noted(s.log, NextKey(s.graph, x)) == None ==> result == AnswerOf(PreReview, s.graph.cells[x])
  {
    var noted := Noted(s.log, NextKey(s.graph, x));
    if noted.Some? { NotedIsRedoable(s, NextKey(s.graph, x)); }
    if noted.Some? && !noted.value.leaf {
      result := SplitSucceeds(s, x, noted.value.seams);
    } else {
      result := LeafReview(true, true, []);
      LeafReviewSucceeds(s, x);
    }
  }

  lemma ClosingIsAccepted(g: Graph, x: Id)
    requires ForwardInv(g) && Equipped(g) && x in g.cells
    requires g.Kind(x) == PostReview && g.cells[x].postReviewAccepted
    ensures var op := Op.Close(x);
            && Apply(g, op).error == None
            && ContentOf(op, g, Apply(g, op).graph) == InPhase(TargetOf(g.def, g.cells[x].phase, "accepted"))
  {
    assert ConsistentAt(g, x) && EquippedAt(g, x) && ForwardAt(g, x);
    TransitionEnters(g, g.cells[x], "accepted", Closed);
  }

  /** A reviewed Cell's closing repeats whatever the log has of it. */
  lemma CloseRepeats(s: Sys, x: Id)
    requires Settled(s) && ForwardInv(s.graph) && x in s.graph.cells
    requires s.graph.Kind(x) == PostReview && s.graph.cells[x].postReviewAccepted
    ensures Repeats(s, Op.Close(x))
  {
    ClosingIsAccepted(s.graph, x);
    var key := OnCell(CellClosed, x, s.graph.cells[x].revision + 1);
    if Noted(s.log, key).Some? { NotedIsRedoable(s, key); }
  }

  /** What the graph makes of a post-review with evidence. */
  lemma PostReviewIsNext(g: Graph, x: Id, refs: seq<string>)
    requires Inv(g) && Equipped(g) && x in g.cells && g.Kind(x) == PostReview && refs != [] && Strings(refs)
    ensures var op := Op.RecordPostReview(x, true, refs);
            && Recordable(g, op) && Apply(g, op).error == None
            && KeyOf(op, Apply(g, op).graph) == ReviewKey(g, x)
            && x in Apply(g, op).graph.cells
            && Apply(g, op).graph.cells[x] == g.cells[x].(postReviewAccepted := true)
  {
    assert ConsistentAt(g, x);
  }

  /** Once its checkpoint is written, the closing follows. */
  lemma CloseSucceeds(s: Sys, x: Id, refs: seq<string>)
    requires Settled(s) && LiveSound(s.graph.runId, s) && s.status == Active && x in s.graph.cells
    requires s.graph.Kind(x) == PostReview && refs != [] && Strings(refs)
    requires Perform(s, Op.RecordPostReview(x, true, refs)).error == None
    ensures var s1 := Perform(s, Op.RecordPostReview(x, true, refs)).sys;
            && Settled(s1) && LiveSound(s.graph.runId, s1) && s1.status == Active
            && s1 == s.(graph := Apply(s.graph, Op.RecordPostReview(x, true, refs)).graph, log := s1.log)
            && Repeats(s1, Op.Close(x)) && Perform(s1, Op.Close(x)).error == None
  {
    var op := Op.RecordPostReview(x, true, refs);
    PostReviewIsNext(s.graph, x, refs);
    StepKeepsNames(s.graph, op);
    RecordsIff(s, op);
    DrivenIsSingle(s.graph, op);
    PerformSound(s.graph.runId, s, op);
    PerformTracks(s, op);
    CloseRepeats(Perform(s, op).sys, x);
    RepeatedSucceeds(Perform(s, op).sys, Op.Close(x));
  }

  /** A post-review goes through exactly if the log has no checkpoint of it, and no event
      of it with other evidence. */
  lemma PostReviewIff(s: Sys, x: Id, refs: seq<string>)
    requires Settled(s) && LiveSound(s.graph.runId, s) && s.status == Active && x in s.graph.cells
    requires s.graph.Kind(x) == PostReview && ReviewRefusal(s, x) == None && refs != [] && Strings(refs)
    ensures var noted := Noted(s.log, ReviewKey(s.graph, x));
            ActPostReview(s, x, refs).error == None <==>
              !Unclosed(s, x) && (noted.Some? ==> noted.value == WithEvidence(refs))
  {
    PostReviewIsNext(s.graph, x, refs);
    RecordsIff(s, Op.RecordPostReview(x, true, refs));
    PostReviewCases(s, x, refs);
    if Perform(s, Op.RecordPostReview(x, true, refs)).error == None { CloseSucceeds(s, x, refs); }
  }

  lemma SomePostReviewSucceeds(s: Sys, x: Id) returns (result: RoleResult)
    requires Settled(s) && LiveSound(s.graph.runId, s) && s.status == Active && x in s.graph.cells
    requires s.graph.Kind(x) == PostReview && ReviewRefusal(s, x) == None && !Unclosed(s, x)
    ensures Act(s, x, PostReview, result).error == None
    ensures Noted(s.log, NextKey(s.graph, x)) == None ==> result == AnswerOf(PostReview, s.graph.cells[x])
  {
    var noted := Noted(s.log, NextKey(s.graph, x));
    if noted.Some? { NotedIsRedoable(s, NextKey(s.graph, x)); }
    var refs := if noted.Some? then noted.value.evidence else ["evidence"];
    result := ResultReview(true, refs);
    PostReviewIff(s, x, refs);
    assert Act(s, x, PostReview, result) == ActPostReview(s, x, refs);
  }

  // ---------- exactly when the driver is blocked ----------

  /** Unless its review is hindered or done already, some answer about a Cell goes through. */
  lemma SomeAnswerSucceeds(s: Sys, x: Id) returns (result: RoleResult)
    requires Settled(s) && LiveSound(s.graph.runId, s) && s.status == Active && x in s.graph.cells
    requires s.graph.Kind(x) in LIFECYCLE - {Children, Closed} && !Hindered(s, x) && !Unclosed(s, x)
    ensures Act(s, x, s.graph.Kind(x), result).error == None
    ensures Noted(s.log, NextKey(s.graph, x)) == None ==> result == AnswerOf(s.graph.Kind(x), s.graph.cells[x])
  {
    if s.graph.Kind(x) == PreReview {
      result := SomePreReviewSucceeds(s, x);
    } else if s.graph.Kind(x) == PostReview {
      result := SomePostReviewSucceeds(s, x);
    } else {
      result := SomeCallSucceeds(s, x);
    }
  }

  /** Whatever is answered at a dead end is refused. */
  lemma DeadEndRefuses(s: Sys, provider: Provider, n: nat)
    requires Settled(s) && LiveSound(s.graph.runId, s) && s.status == Active && DeadEnd(s)
    ensures StepOf(s, provider, n).error.Some?
  {
    var next := NextOf(s.graph);
    if next.Ask? {
      var x := next.id;
      var result := provider(n, Request(s.graph, x));
      StepIsAct(s, provider, n, x);
      if Acceptable(s.graph.Kind(x), result) { DeadAnswerRefused(s, x, result); }
    }
  }

  lemma DeadAnswerRefused(s: Sys, x: Id, result: RoleResult)
    requires Settled(s) && LiveSound(s.graph.runId, s) && s.status == Active && x in s.graph.cells
    requires Acceptable(s.graph.Kind(x), result) && (Hindered(s, x) || Unclosed(s, x))
    ensures Act(s, x, s.graph.Kind(x), result).error.Some?
  {
    if s.graph.Kind(x) == PostReview {
      assert Act(s, x, PostReview, result) == ActPostReview(s, x, result.refs);
      PostReviewCases(s, x, result.refs);
      if ReviewRefusal(s, x) == None { PostReviewIff(s, x, result.refs); }
    } else {
      HinderedIsRefused(s, x, result.leaf, result.seams, if result.leaf then [] else result.children);
    }
  }

  lemma HinderedIsRefused(s: Sys, x: Id, leaf: bool, seams: seq<string>, children: seq<ChildSpec>)
    requires s.status == Active && ReviewRefusal(s, x).Some?
    ensures ActPreReview(s, x, leaf, seams, children).error.Some? && ActPreReview(s, x, leaf, seams, children).sys == s
  {}

  /** In every run the driver left, however often it crashed: no answer whatsoever lets it
      go on exactly if a composite waits for its children, or a review is due that no role
      can give, or the next Cell's post-review was checkpointed and its closing was not. */
  lemma BlockedExactly(p: Scenario, s: Sys)
    requires Kept(p, Live(s)) && Works(s, p.root)
    ensures Blocked(s) <==> DeadEnd(s)
  {
    if DeadEnd(s) {
      forall provider: Provider, n: nat ensures StepOf(s, provider, n).error.Some? { DeadEndRefuses(s, provider, n); }
    } else {
      var provider := SomeProviderSucceeds(p, s);
    }
  }

  lemma SomeProviderSucceeds(p: Scenario, s: Sys) returns (provider: Provider)
    requires Kept(p, Live(s)) && Works(s, p.root) && !DeadEnd(s)
    ensures StepOf(s, provider, 0).error == None
  {
    var x := DriverNeverDeadlocks(s.graph, p.root);
    if s.graph.Kind(x) == Children {
      provider := (n, request) => Malformed;
      IntegrationSucceeds(s, x);
      StepIsIntegration(s, provider, 0, x);
    } else {
      assert ConsistentAt(s.graph, x);
      var result := SomeAnswerSucceeds(s, x);
      provider := (n, request) => result;
      StepIsAct(s, provider, 0, x);
    }
  }
}
