/** One action of the recursive driver: which Cell it works on, what a role's
    answer does to the run, and what every action keeps. */
module DriverSteps {
  import opened Basics
  import opened Workflow
  import opened GraphInvariant
  import opened Closure
  import opened Counting
  import opened System

  // --------------------------------------------------------------- scheduling

  function DepthOf(g: Graph, id: Id): nat {
    if id in g.cells then g.cells[id].depth else 0
  }

  /** Deepest first, then by id. */
  function Before(g: Graph): (Id, Id) -> bool {
    (a, b) => DepthOf(g, a) > DepthOf(g, b) || (DepthOf(g, a) == DepthOf(g, b) && LexLeq(a, b))
  }

  lemma BeforeIsTotalOrder(g: Graph)
    ensures TotalOrder(Before(g))
  {
    LexIsTotalOrder();
  }

  datatype NextAction = Integrate(id: Id) | Ask(id: Id) | Idle | Undecomposed

  function Scan(g: Graph, order: seq<Id>): NextAction
    requires forall i | 0 <= i < |order| :: order[i] in g.cells
  {
    if order == [] then Idle
    else
      var id := order[0];
      match g.Kind(id)
      case Closed => Scan(g, order[1..])
      case Children =>
        if g.cells[id].children == [] then Undecomposed
        else if ChildrenClosed(g, g.cells[id]) then Integrate(id)
        else Scan(g, order[1..])
      case _ => Ask(id)
  }

  function Schedule(g: Graph): (order: seq<Id>)
    ensures SetOf(order) == g.cells.Keys && SortedBy(order, Before(g))
    ensures forall i | 0 <= i < |order| :: order[i] in g.cells
  {
    BeforeIsTotalOrder(g);
    var order := Sorted(g.cells.Keys, Before(g));
    assert forall i | 0 <= i < |order| :: order[i] in SetOf(order);
    order
  }

  function NextOf(g: Graph): NextAction {
    Scan(g, Schedule(g))
  }

  predicate Open(g: Graph, id: Id) {
    id in g.cells && g.Kind(id) != Closed
  }

  ghost predicate FirstOpen(g: Graph, x: Id) {
    Open(g, x) && forall y | Open(g, y) :: Before(g)(x, y)
  }

  lemma FirstOpenExists(g: Graph, id: Id)
    requires Open(g, id)
    ensures exists x :: FirstOpen(g, x)
  {
    BeforeIsTotalOrder(g);
    var open := set y | y in g.cells && Open(g, y);
    assert id in open;
    LeastExists(open, Before(g));
    var x :| Least(x, open, Before(g));
    assert FirstOpen(g, x);
  }

  /** What the scan says when it meets the first open Cell. */
  function Verdict(g: Graph, x: Id): NextAction
    requires x in g.cells
  {
    if g.Kind(x) != Children then Ask(x)
    else if g.cells[x].children == [] then Undecomposed
    else Integrate(x)
  }

  lemma {:induction false} ScanStopsAtFirstOpen(g: Graph, order: seq<Id>, x: Id)
    requires forall i | 0 <= i < |order| :: order[i] in g.cells
    requires SortedBy(order, Before(g)) && x in order && FirstOpen(g, x)
    requires g.Kind(x) == Children ==> ChildrenClosed(g, g.cells[x])
    ensures Scan(g, order) == Verdict(g, x)
  {
    var y := order[0];
    if y != x {
      BeforeIsTotalOrder(g);
      var i :| 0 <= i < |order| && order[i] == x;
      assert Before(g)(y, x);
      assert !Open(g, y);
      assert x == order[1..][i - 1];
      ScanStopsAtFirstOpen(g, order[1..], x);
    }
  }

  lemma NextIsVerdict(g: Graph, x: Id)
    requires FirstOpen(g, x)
    requires g.Kind(x) == Children ==> ChildrenClosed(g, g.cells[x])
    ensures NextOf(g) == Verdict(g, x)
  {
    assert x in SetOf(Schedule(g));
    ScanStopsAtFirstOpen(g, Schedule(g), x);
  }

  /** Everything below the first open Cell is closed already. */
  lemma ChildrenOfFirstAreClosed(g: Graph, x: Id)
    requires Attached(g) && FirstOpen(g, x)
    ensures ChildrenClosed(g, g.cells[x])
  {
    forall k | k in g.cells[x].children ensures g.IsClosed(k) {
      ChildIsDeeper(g, x, k);
      assert DepthOf(g, k) == DepthOf(g, x) + 1;
      assert !Open(g, k);
    }
  }

  /** The driver never deadlocks: while the root is open the first open Cell is
      runnable, and integration begins only over closed children. */
  lemma DriverNeverDeadlocks(g: Graph, root: Id) returns (x: Id)
    requires DriverInv(g) && Open(g, root)
    ensures FirstOpen(g, x)
    ensures NextOf(g) == if g.Kind(x) == Children then Integrate(x) else Ask(x)
    ensures g.Kind(x) == Children ==> g.cells[x].children != [] && ChildrenClosed(g, g.cells[x])
  {
    FirstOpenExists(g, root);
    x :| FirstOpen(g, x);
    ChildrenOfFirstAreClosed(g, x);
    NextIsVerdict(g, x);
    assert Populated(g, x);
  }

  // ------------------------------------------------------------ role results

  /** What a result provider may answer, by the fields it carries. Anything
      else, an exception included, is Malformed. */
  datatype RoleResult =
    | Acceptance(accepted: bool)
    | FrozenTests(visible: string, holdout: string, obligationMap: map<Id, seq<string>>, executable: bool)
    | Planned(planDigest: string, responsibilities: map<Id, string>)
    | LeafReview(accepted: bool, leaf: bool, seams: seq<string>)
    | SplitReview(accepted: bool, leaf: bool, seams: seq<string>, children: seq<ChildSpec>)
    | Verification(passed: bool, refs: seq<string>)
    | ResultReview(accepted: bool, refs: seq<string>)
    | Malformed

  datatype DriverRequest = DriverRequest(runId: string, cell: Cell, kind: Kind, role: Option<string>)

  type Provider = (nat, DriverRequest) -> RoleResult

  predicate Strings(list: seq<string>) {
    "" !in list
  }

  predicate GoodChildSpec(spec: ChildSpec) {
    && spec.cellId != "" && spec.owner != "" && Truthy(spec.contract)
    && spec.obligations != [] && Strings(spec.obligations)
    && spec.scope != [] && Strings(spec.scope)
  }

  /** The driver's own checks on an answer, made before anything is changed. */
  predicate Acceptable(kind: Kind, result: RoleResult) {
    match kind
    case Contract => result.Acceptance? && result.accepted
    case Tests =>
      result.FrozenTests? && result.executable
      && forall o | o in result.obligationMap :: result.obligationMap[o] != [] && Strings(result.obligationMap[o])
    case Plan => result.Planned?
    case PreReview =>
      || (result.LeafReview? && result.leaf && result.accepted && Strings(result.seams))
      || (result.SplitReview? && !result.leaf && result.accepted && Strings(result.seams) && result.children != []
          && forall i | 0 <= i < |result.children| :: GoodChildSpec(result.children[i]))
    case Implementation => result.Verification? && result.passed && result.refs != [] && Strings(result.refs)
    case Integration => result.Verification? && result.passed && result.refs != [] && Strings(result.refs)
    case PostReview => result.ResultReview? && result.accepted && result.refs != [] && Strings(result.refs)
    case _ => false
  }

  /** The rehearsal of a pre-review on a copy of the graph. */
  ghost function Trial(g: Graph, id: Id, leaf: bool, seams: seq<string>, children: seq<ChildSpec>): Option<Error> {
    var reviewed := Apply(g, Op.RecordPreReview(id, true, leaf, seams));
    if reviewed.error.Some? || leaf then reviewed.error
    else Apply(reviewed.graph, Op.Decompose(id, children)).error
  }

  ghost function ActPreReview(s: Sys, id: Id, leaf: bool, seams: seq<string>, children: seq<ChildSpec>): SysOutcome {
    var trial := Trial(s.graph, id, leaf, seams, children);
    if trial.Some? then SysOutcome(s, trial)
    else
      var reviewed := SysApply(s, Lifecycle(Op.RecordPreReview(id, true, leaf, seams)));
      if reviewed.error.Some? || leaf then reviewed
      else SysApply(reviewed.sys, Lifecycle(Op.Decompose(id, children)))
  }

  ghost function ActPostReview(s: Sys, id: Id, refs: seq<string>): SysOutcome {
    var reviewed := SysApply(s, Lifecycle(Op.RecordPostReview(id, true, refs)));
    if reviewed.error.Some? then reviewed else SysApply(reviewed.sys, Lifecycle(Op.Close(id)))
  }

  /** The lifecycle call an acceptable answer becomes in the one-call phases. */
  function CallFor(id: Id, kind: Kind, result: RoleResult): Op
    requires Acceptable(kind, result) && kind != PreReview && kind != PostReview
  {
    if kind == Contract then Op.AcceptContract(id)
    else if kind == Tests then
      Op.FreezeTests(id, TestBasis(result.visible, result.holdout, result.obligationMap, true))
    else if kind == Plan then Op.RecordPlan(id, result.planDigest, result.responsibilities)
    else if kind == Implementation then Op.RecordVerification(id, true, result.refs)
    else Op.RecordIntegration(id, true, result.refs)
  }

  ghost function Act(s: Sys, id: Id, kind: Kind, result: RoleResult): SysOutcome {
    if !Acceptable(kind, result) then SysOutcome(s, Some(SchemaError))
    else if kind == PreReview then
      ActPreReview(s, id, result.leaf, result.seams, if result.leaf then [] else result.children)
    else if kind == PostReview then ActPostReview(s, id, result.refs)
    else SysApply(s, Lifecycle(CallFor(id, kind, result)))
  }

  function Request(g: Graph, id: Id): DriverRequest
    requires id in g.cells
  {
    DriverRequest(g.runId, g.cells[id], g.Kind(id), Role(g, id))
  }

  ghost function StepOf(s: Sys, provider: Provider, n: nat): SysOutcome {
    match NextOf(s.graph)
    case Idle => SysOutcome(s, Some(SchemaError))
    case Undecomposed => SysOutcome(s, Some(SchemaError))
    case Integrate(id) => SysApply(s, Lifecycle(Op.BeginIntegration(id)))
    case Ask(id) =>
      if id !in s.graph.cells then SysOutcome(s, Some(SchemaError))
      else Act(s, id, s.graph.Kind(id), provider(n, Request(s.graph, id)))
  }

  const REFUSAL := "driver refusal"

  /** A whole turn of the driver: a refused action parks the run. */
  ghost function TurnOf(s: Sys, provider: Provider, n: nat): SysOutcome {
    var o := StepOf(s, provider, n);
    if o.error.Some? then SysOutcome(ParkRun(o.sys, REFUSAL).sys, o.error) else o
  }

  /** The provider stops splitting Cells at a depth. */
  ghost predicate StopsAt(provider: Provider, depth: nat) {
    forall n: nat, request: DriverRequest :: request.cell.depth >= depth ==> !provider(n, request).SplitReview?
  }

  // ------------------------------------------------- what one graph call does

  lemma AdvanceKeepsAttached(g: Graph, g': Graph, id: Id)
    requires Attached(g) && Rewrites(g, g', id) && Advances(g, g', id)
    ensures Attached(g')
    ensures forall x | x in g'.cells && x != id :: x in g.cells && g'.cells[x] == g.cells[x]
    ensures forall r :: IsRoot(g, r) <==> IsRoot(g', r)
  {
    AdvanceKeepsForward(g, g', id);
    forall x | x in g'.cells ensures AttachedAt(g', x) {
      assert AttachedAt(g, x);
    }
  }

  lemma AdvanceKeepsDriverInv(g: Graph, g': Graph, id: Id)
    requires DriverInv(g) && Rewrites(g, g', id) && Advances(g, g', id)
    requires g.def.KindOf(g'.cells[id].phase) != Children
    ensures DriverInv(g')
  {
    AdvanceKeepsAttached(g, g', id);
    forall x | x in g'.cells ensures Populated(g', x) {
      assert x in g.cells && Populated(g, x);
    }
  }

  /** The calls by which the driver moves a Cell one phase on. */
  predicate OnePhase(op: Op) {
    op.AcceptContract? || op.FreezeTests? || op.RecordPlan? || op.RecordPreReview?
    || op.RecordVerification? || op.BeginIntegration? || op.RecordIntegration? || op.Close?
  }

  lemma EarlyCallAdvancesByOne(g: Graph, c: Cell, op: Op)
    requires Sound(g, c) && ApplyTo(g, c, op).error == None
    requires op.AcceptContract? || op.FreezeTests? || op.RecordPlan?
    ensures c.cellId in ApplyTo(g, c, op).graph.cells
    ensures var c' := ApplyTo(g, c, op).graph.cells[c.cellId];
            Progress(g.def, c') == Progress(g.def, c) + 1 && g.def.KindOf(c'.phase) != Children
  {
    match op
    case AcceptContract(_) => TransitionEnters(g, c, "accepted", Tests);
    case FreezeTests(_, b) =>
      TransitionEnters(Put(g, Frozen(c, b), "tests.frozen"), Frozen(c, b), "frozen", Plan);
    case RecordPlan(_, d, r) =>
      var c' := c.(planDigest := Some(d), responsibilities := r);
      TransitionEnters(Put(g, c', "plan.recorded"), c', "planned", PreReview);
  }

  lemma ReviewAdvancesByOne(g: Graph, c: Cell, op: Op)
    requires Sound(g, c) && ApplyTo(g, c, op).error == None && op.RecordPreReview?
    ensures c.cellId in ApplyTo(g, c, op).graph.cells
    ensures var c' := ApplyTo(g, c, op).graph.cells[c.cellId];
            && Progress(g.def, c') == Progress(g.def, c) + 1
            && (g.def.KindOf(c'.phase) == Children <==> !op.leaf)
            && (!op.leaf ==> c'.preReviewAccepted && c'.leaf == Some(false))
  {
    var c' := c.(preReviewAccepted := true, leaf := Some(op.leaf), seams := op.seams);
    TransitionEnters(Put(g, c', "pre_review.recorded"), c', if op.leaf then "leaf" else "composite",
                     if op.leaf then Implementation else Children);
  }

  lemma LateCallAdvancesByOne(g: Graph, c: Cell, op: Op)
    requires Sound(g, c) && ForwardAt(g, c.cellId) && ApplyTo(g, c, op).error == None
    requires op.RecordVerification? || op.BeginIntegration?
    ensures c.cellId in ApplyTo(g, c, op).graph.cells
    ensures var c' := ApplyTo(g, c, op).graph.cells[c.cellId];
            && Progress(g.def, c') == Progress(g.def, c) + 1
            && g.def.KindOf(c'.phase) != Children
  {
    match op
    case RecordVerification(_, _, _) =>
      var c' := c.(verificationPassed := true);
      TransitionEnters(Put(g, c', "verification.recorded"), c', "verified", PostReview);
    case BeginIntegration(_) => BeginIntegrationRewrites(g, c);
  }

  lemma LastCallAdvancesByOne(g: Graph, c: Cell, op: Op)
    requires Sound(g, c) && ApplyTo(g, c, op).error == None
    requires op.RecordIntegration? || op.Close?
    requires op.RecordIntegration? ==> g.def.KindOf(c.phase) == Integration
    ensures c.cellId in ApplyTo(g, c, op).graph.cells
    ensures var c' := ApplyTo(g, c, op).graph.cells[c.cellId];
            && Progress(g.def, c') == Progress(g.def, c) + 1
            && g.def.KindOf(c'.phase) != Children
  {
    match op
    case RecordIntegration(_, _, _) =>
      var c' := c.(integrationPassed := true);
      TransitionEnters(Put(g, c', "verification.recorded"), c', "verified", PostReview);
    case Close(_) => TransitionEnters(g, c, "accepted", Closed);
  }

  /** A successful one-phase call: the tree stays attached, the total grows by
      one, and only a composite review leaves a Cell waiting for children. */
  lemma CallAdvancesByOne(g: Graph, op: Op)
    requires DriverInv(g) && OnePhase(op) && op.id in g.cells
    requires op.RecordIntegration? ==> g.Kind(op.id) == Integration
    requires Apply(g, op).error == None
    ensures var g' := Apply(g, op).graph;
            && Rewrites(g, g', op.id) && Advances(g, g', op.id)
            && Attached(g') && Total(g') == Total(g) + 1
            && (!(op.RecordPreReview? && !op.leaf) ==> DriverInv(g'))
            && (op.RecordPreReview? && !op.leaf ==>
                  HalfReviewed(g', op.id) && g'.cells[op.id].preReviewAccepted && g'.cells[op.id].leaf == Some(false))
  {
    var g', c := Apply(g, op).graph, g.cells[op.id];
    assert ConsistentAt(g, op.id) && ForwardAt(g, op.id);
    CellStepRewrites(g, c, op);
    if op.AcceptContract? || op.FreezeTests? || op.RecordPlan? {
      EarlyCallAdvancesByOne(g, c, op);
    } else if op.RecordPreReview? {
      ReviewAdvancesByOne(g, c, op);
    } else if op.RecordVerification? || op.BeginIntegration? {
      LateCallAdvancesByOne(g, c, op);
    } else {
      LastCallAdvancesByOne(g, c, op);
    }
    RewriteTotal(g, g', op.id);
    AdvanceKeepsAttached(g, g', op.id);
    if op.RecordPreReview? && !op.leaf {
      forall x | x in g'.cells && x != op.id ensures Populated(g', x) {
        assert Populated(g, x);
      }
    } else {
      AdvanceKeepsDriverInv(g, g', op.id);
    }
  }

  lemma SplitAttaches(g: Graph, g': Graph, c: Cell, children: seq<ChildSpec>, id: Id)
    requires c.cellId in g.cells && c == g.cells[c.cellId] && c.children == [] && children != []
    requires g.def.KindOf(g.def.initial) == Contract
    requires Decomposed(g, g', c, children) && id in g'.cells
    requires id in g.cells ==> AttachedAt(g, id) && (id != c.cellId ==> Populated(g, id))
    ensures AttachedAt(g', id) && Populated(g', id)
  {
    if id !in g.cells {
      var i :| 0 <= i < |children| && ChildIds(children)[i] == id;
    }
  }

  /** Splitting the waiting Cell completes a composite review. */
  lemma SplitCompletesReview(g: Graph, x: Id, children: seq<ChildSpec>)
    requires HalfReviewed(g, x) && Apply(g, Op.Decompose(x, children)).error == None
    ensures var g' := Apply(g, Op.Decompose(x, children)).graph;
            && DriverInv(g') && Total(g') == Total(g)
            && Decomposed(g, g', g.cells[x], children)
            && forall r | IsRoot(g, r) :: IsRoot(g', r) && g'.cells[r].obligations == g.cells[r].obligations
  {
    var c, g' := g.cells[x], Apply(g, Op.Decompose(x, children)).graph;
    assert ConsistentAt(g, x);
    DecomposeKeepsForward(g, c, children);
    DecomposeEffect(g, c, children);
    DecomposeTotal(g, g', c, children);
    forall id | id in g'.cells ensures AttachedAt(g', id) && Populated(g', id) {
      assert id in g.cells ==> AttachedAt(g, id) && (id != x ==> Populated(g, id));
      SplitAttaches(g, g', c, children, id);
    }
    forall r | IsRoot(g, r) ensures IsRoot(g', r) && g'.cells[r].obligations == g.cells[r].obligations {
      SplitKeepsRoot(g, g', c, children, r);
    }
  }

  lemma SplitKeepsRoot(g: Graph, g': Graph, c: Cell, children: seq<ChildSpec>, r: Id)
    requires c.cellId in g.cells && c == g.cells[c.cellId] && Decomposed(g, g', c, children) && IsRoot(g, r)
    ensures IsRoot(g', r) && g'.cells[r].obligations == g.cells[r].obligations
  {}
}
