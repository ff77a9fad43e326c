/** What every run of graph operations keeps, backward moves and refused calls
    included: the verification flags match the phase, the Cells form one rooted
    tree, current children split their parent's obligations, and revisions only
    grow. */
module GraphInvariant {
  import opened Basics
  import opened Workflow

  // ---------------------------------------------------------- the invariants

  /** Flags, review decisions and phase of one Cell agree. */
  ghost predicate Consistent(d: Definition, c: Cell) {
    var kind := d.KindOf(c.phase);
    && c.phase in d.phases && kind in LIFECYCLE && c.revision >= 1
    && !(c.verificationPassed && c.integrationPassed)
    && (c.verificationPassed || c.integrationPassed <==> kind == PostReview || kind == Closed)
    && (c.verificationPassed ==> Ready(c))
    && (kind == Closed ==> c.postReviewAccepted)
    && (kind == Closed && c.children == [] ==> c.verificationPassed)
    && (kind == Closed && c.children != [] ==> c.integrationPassed)
    && (kind == Implementation ==> c.preReviewAccepted && c.leaf == Some(true) && c.seams == [])
    && (kind == Children || kind == Integration || c.integrationPassed ==>
          c.preReviewAccepted && c.leaf == Some(false))
    && (kind == Integration || c.integrationPassed ==> c.children != [])
  }

  ghost predicate ConsistentAt(g: Graph, id: Id)
    requires id in g.cells
  {
    g.cells[id].cellId == id && Consistent(g.def, g.cells[id])
  }

  ghost predicate AllConsistent(g: Graph) {
    forall id {:trigger ConsistentAt(g, id)} | id in g.cells :: ConsistentAt(g, id)
  }

  /** c is placed under p as decomposition places a child. */
  predicate Under(p: Cell, c: Cell) {
    && c.depth == p.depth + 1
    && NarrowsScope(p.scope, c.scope)
    && SetOf(c.obligations) <= SetOf(p.obligations)
  }

  ghost predicate Placed(g: Graph, id: Id)
    requires id in g.cells
  {
    && g.cells[id].obligations != []
    && match g.cells[id].parent
       case None => g.cells[id].depth == 0
       case Some(p) => p in g.cells && Under(g.cells[p], g.cells[id])
  }

  predicate IsRoot(g: Graph, id: Id) {
    id in g.cells && g.cells[id].parent == None
  }

  /** Parent links form one tree. */
  ghost predicate Tree(g: Graph) {
    && (forall id {:trigger Placed(g, id)} | id in g.cells :: Placed(g, id))
    && (forall a, b {:trigger IsRoot(g, a), IsRoot(g, b)} :: IsRoot(g, a) && IsRoot(g, b) ==> a == b)
  }

  /** The current children of a Cell exist, are its own, and split its obligations. */
  ghost predicate Split(g: Graph, id: Id)
    requires id in g.cells
  {
    var p := g.cells[id];
    && Distinct(p.children)
    && (forall k | k in p.children :: k in g.cells && g.cells[k].parent == Some(id))
    && (forall j, k | j in p.children && k in p.children && j != k ::
          SetOf(g.cells[j].obligations) !! SetOf(g.cells[k].obligations))
    && (p.children != [] ==> forall o | o in p.obligations :: exists k ::
        k in p.children && o in g.cells[k].obligations)
  }

  ghost predicate AllSplit(g: Graph) {
    forall id {:trigger Split(g, id)} | id in g.cells :: Split(g, id)
  }

  ghost predicate Inv(g: Graph) {
    WellShaped(g.def) && AllConsistent(g) && Tree(g) && AllSplit(g)
  }

  /** No revision fell, and a Cell whose phase changed has a larger one. */
  ghost predicate Newer(g: Graph, g': Graph) {
    forall id | id in g.cells ::
      && id in g'.cells
      && g.cells[id].revision <= g'.cells[id].revision
      && (g.cells[id].phase != g'.cells[id].phase ==> g.cells[id].revision < g'.cells[id].revision)
  }

  // ------------------------------------------------ steps that touch one Cell

  ghost predicate SamePlace(c: Cell, c': Cell) {
    && c'.cellId == c.cellId && c'.parent == c.parent && c'.obligations == c.obligations
    && c'.scope == c.scope && c'.depth == c.depth
  }

  /** g' is g with Cell id rewritten in place, consistently and not backdated. */
  ghost predicate Rewrites(g: Graph, g': Graph, id: Id) {
    && g'.def == g.def && g'.runId == g.runId
    && id in g.cells && id in g'.cells
    && g'.cells == g.cells[id := g'.cells[id]]
    && (var c, c' := g.cells[id], g'.cells[id];
        && SamePlace(c, c')
        && (c'.children == c.children || c'.children == [])
        && c.revision <= c'.revision
        && (c.phase != c'.phase ==> c.revision < c'.revision)
        && Consistent(g.def, c'))
  }

  /** How a forward call may move a Cell: along the lifecycle, keeping its
      children, and into integration only over closed children. */
  ghost predicate Advances(g: Graph, g': Graph, id: Id)
    requires id in g.cells && id in g'.cells
  {
    var c, c' := g.cells[id], g'.cells[id];
    var k, k' := g.def.KindOf(c.phase), g.def.KindOf(c'.phase);
    && c'.children == c.children
    && (c'.leaf == c.leaf || k == PreReview)
    && (k' != k ==>
          || (k' in {Tests, Plan, PreReview, Implementation, Children} && k in {Contract, Tests, Plan, PreReview})
          || (k' in {Integration, PostReview} && k == Children && ChildrenClosed(g, c))
          || (k' == PostReview && k in {Implementation, Integration})
          || (k' == Closed && k == PostReview))
  }

  lemma RewriteKeepsInv(g: Graph, g': Graph, id: Id)
    requires Inv(g) && Rewrites(g, g', id)
    ensures Inv(g') && Newer(g, g')
  {
    assert forall k | k in g.cells :: k in g'.cells && SamePlace(g.cells[k], g'.cells[k]);
    forall k | k in g'.cells ensures ConsistentAt(g', k) && Placed(g', k) && Split(g', k) {
      assert ConsistentAt(g, k) && Placed(g, k) && Split(g, k) && ConsistentAt(g, id);
      RewriteKeepsSplit(g, g', id, k);
    }
    forall a, b | IsRoot(g', a) && IsRoot(g', b) ensures a == b {
      assert IsRoot(g, a) && IsRoot(g, b);
    }
  }

  lemma RewriteKeepsSplit(g: Graph, g': Graph, id: Id, k: Id)
    requires Rewrites(g, g', id) && k in g.cells && Split(g, k)
    ensures Split(g', k)
  {
    assert g'.cells[k].children == g.cells[k].children || g'.cells[k].children == [];
    var p := g'.cells[k];
    assert p.obligations == g.cells[k].obligations;
    forall o | p.children != [] && o in p.obligations
      ensures exists j :: j in p.children && o in g'.cells[j].obligations
    {
      var j :| j in g.cells[k].children && o in g.cells[j].obligations;
      assert j in p.children && o in g'.cells[j].obligations;
    }
  }

  /** In a well-shaped definition a transition always succeeds. */
  lemma TransitionEnters(g: Graph, c: Cell, outcome: string, to: Kind)
    requires WellShaped(g.def) && c.phase in g.def.phases
    requires Link(g.def.KindOf(c.phase), outcome, to)
    ensures var t := Transition(g, c, outcome);
            && t.error == None && c.cellId in t.graph.cells
            && (var c' := t.graph.cells[c.cellId];
                && t.graph == Put(g, c', "cell.transitioned")
                && c' == c.(phase := c'.phase, revision := c.revision + 1)
                && c'.phase in g.def.phases && g.def.KindOf(c'.phase) == to)
  {}

  lemma PhaseForKindIsTheOne(d: Definition, kind: Kind)
    ensures PhaseForKind(d, kind).Some? <==> |d.PhasesOfKind(kind)| == 1
    ensures PhaseForKind(d, kind).Some? ==> d.PhasesOfKind(kind) == {PhaseForKind(d, kind).value}
  {
    var ps := d.PhasesOfKind(kind);
    if |ps| == 1 {
      var p :| p in ps;
      assert |ps - {p}| == 0;
      assert ps == {p};
    }
  }

  lemma PhaseForKindFound(d: Definition, kind: Kind)
    requires WellShaped(d) && kind in LIFECYCLE
    ensures PhaseForKind(d, kind).Some?
    ensures PhaseForKind(d, kind).value in d.phases && d.KindOf(PhaseForKind(d, kind).value) == kind
  {
    PhaseForKindIsTheOne(d, kind);
    assert PhaseForKind(d, kind).value in d.PhasesOfKind(kind);
  }

  /** A Cell of g that the invariant speaks about. */
  ghost predicate Sound(g: Graph, c: Cell) {
    WellShaped(g.def) && c.cellId in g.cells && c == g.cells[c.cellId] && Consistent(g.def, c)
  }

  /** A refused call left the graph as it was. */
  predicate AllOrNothing(g: Graph, o: Outcome) {
    o.error.Some? ==> o.graph == g
  }

  lemma AcceptContractRewrites(g: Graph, c: Cell)
    requires Sound(g, c)
    ensures var g' := AcceptContractOp(g, c).graph; Rewrites(g, g', c.cellId) && Advances(g, g', c.cellId)
    ensures AllOrNothing(g, AcceptContractOp(g, c))
  {
    if g.def.KindOf(c.phase) == Contract {
      TransitionEnters(g, c, "accepted", Tests);
    }
  }

  lemma FreezeTestsRewrites(g: Graph, c: Cell, b: TestBasis)
    requires Sound(g, c)
    ensures var g' := FreezeTestsOp(g, c, b).graph; Rewrites(g, g', c.cellId) && Advances(g, g', c.cellId)
    ensures AllOrNothing(g, FreezeTestsOp(g, c, b))
  {
    if g.def.KindOf(c.phase) == Tests && GoodBasis(c, b) {
      var c' := Frozen(c, b);
      TransitionEnters(Put(g, c', "tests.frozen"), c', "frozen", Plan);
    }
  }

  lemma ReviseTestsRewrites(g: Graph, c: Cell, b: TestBasis)
    requires Sound(g, c)
    ensures Rewrites(g, ReviseTestsOp(g, c, b).graph, c.cellId)
  {
    PhaseForKindFound(g.def, Plan);
    var p := PhaseForKind(g.def, Plan).value;
    var c' := Unplanned(Frozen(c, b)).(phase := p, revision := c.revision + 1);
    assert Consistent(g.def, c');
  }

  lemma RecordPlanRewrites(g: Graph, c: Cell, d: string, r: map<Id, string>)
    requires Sound(g, c)
    ensures var g' := RecordPlanOp(g, c, d, r).graph; Rewrites(g, g', c.cellId) && Advances(g, g', c.cellId)
    ensures AllOrNothing(g, RecordPlanOp(g, c, d, r))
  {
    if g.def.KindOf(c.phase) == Plan {
      var c' := c.(planDigest := Some(d), responsibilities := r);
      TransitionEnters(Put(g, c', "plan.recorded"), c', "planned", PreReview);
    }
  }

  lemma RecordPreReviewRewrites(g: Graph, c: Cell, accepted: bool, leaf: bool, seams: seq<string>)
    requires Sound(g, c)
    ensures var g' := RecordPreReviewOp(g, c, accepted, leaf, seams).graph;
            Rewrites(g, g', c.cellId) && Advances(g, g', c.cellId)
    ensures AllOrNothing(g, RecordPreReviewOp(g, c, accepted, leaf, seams))
  {
    if g.def.KindOf(c.phase) == PreReview {
      var c' := c.(preReviewAccepted := true, leaf := Some(leaf), seams := seams);
      TransitionEnters(Put(g, c', "pre_review.recorded"), c', if leaf then "leaf" else "composite",
                       if leaf then Implementation else Children);
    }
  }

  lemma RecordVerificationRewrites(g: Graph, c: Cell, passed: bool, evidence: seq<string>)
    requires Sound(g, c)
    ensures var g' := RecordVerificationOp(g, c, passed, evidence).graph;
            Rewrites(g, g', c.cellId) && Advances(g, g', c.cellId)
    ensures AllOrNothing(g, RecordVerificationOp(g, c, passed, evidence))
  {
    NothingMissingIsReady(c);
    if g.def.KindOf(c.phase) == Implementation {
      var c' := c.(verificationPassed := true);
      TransitionEnters(Put(g, c', "verification.recorded"), c', "verified", PostReview);
    }
  }

  lemma BeginIntegrationRewrites(g: Graph, c: Cell)
    requires Sound(g, c)
    ensures var r := BeginIntegrationOp(g, c);
            && Rewrites(g, r.graph, c.cellId) && Advances(g, r.graph, c.cellId)
            && (r.error == None <==>
                  g.def.KindOf(c.phase) == Children && c.children != [] && ChildrenClosed(g, c))
            && (r.error == None ==>
                  && r.graph.Kind(c.cellId) == Integration
                  && r.graph.cells[c.cellId] ==
                       c.(phase := r.graph.cells[c.cellId].phase, revision := c.revision + 1))
            && (r.error.Some? ==> r.graph == g)
  {
    if g.def.KindOf(c.phase) == Children { TransitionEnters(g, c, "integrated", Integration); }
  }

  lemma IntegratedRewrites(g: Graph, c: Cell)
    requires Sound(g, c) && g.def.KindOf(c.phase) == Integration
    ensures var c' := c.(integrationPassed := true);
            var t := Transition(Put(g, c', "verification.recorded"), c', "verified");
            t.error == None && Rewrites(g, t.graph, c.cellId) && Advances(g, t.graph, c.cellId)
  {
    var c' := c.(integrationPassed := true);
    TransitionEnters(Put(g, c', "verification.recorded"), c', "verified", PostReview);
  }

  /** From the children phase through integration. */
  lemma RewriteTwice(g: Graph, g1: Graph, g2: Graph, id: Id)
    requires Rewrites(g, g1, id) && Rewrites(g1, g2, id) && Advances(g, g1, id) && Advances(g1, g2, id)
    requires g.Kind(id) == Children && g1.Kind(id) == Integration && g2.Kind(id) == PostReview
    ensures Rewrites(g, g2, id) && Advances(g, g2, id)
  {}

  lemma RecordIntegrationRewrites(g: Graph, c: Cell, passed: bool, evidence: seq<string>)
    requires Sound(g, c)
    ensures var g' := RecordIntegrationOp(g, c, passed, evidence).graph;
            Rewrites(g, g', c.cellId) && Advances(g, g', c.cellId)
    ensures g.def.KindOf(c.phase) != Children ==> AllOrNothing(g, RecordIntegrationOp(g, c, passed, evidence))
  {
    BeginIntegrationRewrites(g, c);
    var begun := if g.def.KindOf(c.phase) == Children then BeginIntegrationOp(g, c) else Done(g);
    if begun.error == None && begun.graph.Kind(c.cellId) == Integration {
      IntegratedRewrites(begun.graph, begun.graph.cells[c.cellId]);
      if g.def.KindOf(c.phase) == Children && passed && evidence != [] {
        RewriteTwice(g, begun.graph, RecordIntegrationOp(g, c, passed, evidence).graph, c.cellId);
      }
    }
  }

  lemma CloseRewrites(g: Graph, c: Cell)
    requires Sound(g, c)
    ensures var g' := CloseOp(g, c).graph; Rewrites(g, g', c.cellId) && Advances(g, g', c.cellId)
    ensures AllOrNothing(g, CloseOp(g, c))
  {
    if g.def.KindOf(c.phase) == PostReview {
      TransitionEnters(g, c, "accepted", Closed);
    }
  }

  lemma ReopenRewrites(g: Graph, c: Cell)
    requires Sound(g, c)
    ensures Rewrites(g, ReopenOp(g, c).graph, c.cellId)
  {
    PhaseForKindFound(g.def, PostReview);
  }

  lemma PostReviewRewrites(g: Graph, c: Cell, accepted: bool, evidence: seq<string>)
    requires Sound(g, c)
    ensures var g' := RecordPostReviewOp(g, c, accepted, evidence).graph;
            Rewrites(g, g', c.cellId) && Advances(g, g', c.cellId)
    ensures AllOrNothing(g, RecordPostReviewOp(g, c, accepted, evidence))
  {}

  lemma ClaimsRewrite(g: Graph, c: Cell, claimId: Id, claim: NewClaim, resolution: string, verification: string)
    requires Sound(g, c)
    ensures var g' := AddClaimOp(g, c, claimId, claim).graph; Rewrites(g, g', c.cellId) && Advances(g, g', c.cellId)
    ensures var g' := ResolveClaimOp(g, c, claimId, resolution, verification).graph;
            Rewrites(g, g', c.cellId) && Advances(g, g', c.cellId)
  {}

  lemma ApprovalRewrites(g: Graph, c: Cell, reviewer: string)
    requires Sound(g, c)
    ensures var g' := AddApprovalOp(g, c, reviewer).graph; Rewrites(g, g', c.cellId) && Advances(g, g', c.cellId)
  {}

  lemma RouteRewrites(g: Graph, target: Id, claimId: Id, proposition: string, evidence: seq<string>)
    requires target in g.cells && Sound(g, g.cells[target]) && g.cells[target].cellId == target
    ensures Rewrites(g, RouteTo(g, g.cells[target], claimId, proposition, evidence).graph, target)
  {
    PhaseForKindFound(g.def, PreReview);
  }

  // --------------------------------------------- steps that create Cells

  lemma RootKeepsInv(g: Graph, op: Op)
    requires Inv(g) && op.CreateRoot?
    ensures Inv(Apply(g, op).graph) && Newer(g, Apply(g, op).graph)
  {
    var g' := Apply(g, op).graph;
    if g' != g {
      assert g'.cells.Keys == {op.id};
      assert ConsistentAt(g', op.id) && Placed(g', op.id) && Split(g', op.id);
    }
  }

  lemma {:induction false} ChildrenKeys(g: Graph, c: Cell, children: seq<ChildSpec>)
    ensures var g' := AddChildren(g, c, children);
            && g'.def == g.def && g'.runId == g.runId
            && g'.cells.Keys == g.cells.Keys + SetOf(ChildIds(children))
  {
    if children != [] {
      var n := |children| - 1;
      ChildrenKeys(g, c, children[..n]);
      assert ChildIds(children) == ChildIds(children[..n]) + [children[n].cellId];
    }
  }

  lemma {:induction false} OldCellsStay(g: Graph, c: Cell, children: seq<ChildSpec>, id: Id)
    requires id in g.cells && id !in ChildIds(children)
    ensures id in AddChildren(g, c, children).cells && AddChildren(g, c, children).cells[id] == g.cells[id]
  {
    if children != [] {
      var n := |children| - 1;
      assert ChildIds(children)[n] == children[n].cellId;
      assert ChildIds(children[..n]) == ChildIds(children)[..n];
      OldCellsStay(g, c, children[..n], id);
    }
  }

  lemma {:induction false} ChildAdded(g: Graph, c: Cell, children: seq<ChildSpec>, i: nat)
    requires Distinct(ChildIds(children)) && i < |children|
    ensures var cells := AddChildren(g, c, children).cells;
            children[i].cellId in cells && cells[children[i].cellId] == Child(g.def, c, children[i])
  {
    var n := |children| - 1;
    ChildrenKeys(g, c, children[..n]);
    if i < n {
      assert ChildIds(children)[i] != ChildIds(children)[n];
      assert ChildIds(children[..n]) == ChildIds(children)[..n];
      ChildAdded(g, c, children[..n], i);
    }
  }

  /** What a successful decomposition leaves behind. */
  ghost predicate Decomposed(g: Graph, g': Graph, c: Cell, children: seq<ChildSpec>) {
    var ids := ChildIds(children);
    && g'.def == g.def && g'.runId == g.runId
    && g'.cells.Keys == g.cells.Keys + SetOf(ids)
    && (forall id | id in g.cells && id != c.cellId :: g'.cells[id] == g.cells[id])
    && c.cellId in g'.cells && g'.cells[c.cellId] == c.(children := ids, revision := c.revision + 1)
    && (forall i | 0 <= i < |children| ::
          ids[i] !in g.cells && ids[i] in g'.cells && g'.cells[ids[i]] == Child(g.def, c, children[i]))
  }

  lemma DecomposeEffect(g: Graph, c: Cell, children: seq<ChildSpec>)
    requires c.cellId in g.cells && c == g.cells[c.cellId]
    requires DecomposeOp(g, c, children).error == None
    ensures Decomposed(g, DecomposeOp(g, c, children).graph, c, children)
  {
    var g1, ids := AddChildren(g, c, children), ChildIds(children);
    ChildrenKeys(g, c, children);
    forall id | id in g.cells ensures id in g1.cells && g1.cells[id] == g.cells[id] {
      OldCellsStay(g, c, children, id);
    }
    forall i | 0 <= i < |children|
      ensures ids[i] !in g.cells && ids[i] in g1.cells && g1.cells[ids[i]] == Child(g.def, c, children[i])
    {
      ChildAdded(g, c, children, i);
    }
  }

  lemma DecomposeKeepsConsistent(g: Graph, g': Graph, c: Cell, children: seq<ChildSpec>, id: Id)
    requires Inv(g) && c.cellId in g.cells && c == g.cells[c.cellId]
    requires g.def.KindOf(c.phase) == Children && Decomposed(g, g', c, children) && children != []
    requires id in g'.cells
    ensures ConsistentAt(g', id)
  {
    var ids := ChildIds(children);
    assert ConsistentAt(g, c.cellId);
    if id !in g.cells {
      var i :| 0 <= i < |ids| && ids[i] == id;
    } else if id != c.cellId {
      assert ConsistentAt(g, id);
    }
  }

  lemma DecomposeKeepsPlaced(g: Graph, g': Graph, c: Cell, children: seq<ChildSpec>, id: Id)
    requires Tree(g) && c.cellId in g.cells && c == g.cells[c.cellId]
    requires GoodSplit(g, c, children) && Decomposed(g, g', c, children)
    requires id in g'.cells
    ensures Placed(g', id) && (IsRoot(g', id) ==> IsRoot(g, id))
  {
    var ids := ChildIds(children);
    if id !in g.cells {
      var i :| 0 <= i < |ids| && ids[i] == id;
      assert GoodChild(c, children[i]);
    } else {
      assert Placed(g, id);
      assert SamePlace(g.cells[id], g'.cells[id]);
      if g.cells[id].parent.Some? {
        assert SamePlace(g.cells[g.cells[id].parent.value], g'.cells[g.cells[id].parent.value]);
      }
    }
  }

  lemma SplitChildrenAreDisjoint(g: Graph, g': Graph, c: Cell, children: seq<ChildSpec>, j: Id, k: Id)
    requires GoodSplit(g, c, children) && Decomposed(g, g', c, children)
    requires j in ChildIds(children) && k in ChildIds(children) && j != k
    ensures SetOf(g'.cells[j].obligations) !! SetOf(g'.cells[k].obligations)
  {
    var ids := ChildIds(children);
    var a :| 0 <= a < |ids| && ids[a] == j;
    var b :| 0 <= b < |ids| && ids[b] == k;
    if a < b {
      assert SetOf(children[a].obligations) !! SetOf(children[b].obligations);
    } else {
      assert SetOf(children[b].obligations) !! SetOf(children[a].obligations);
    }
  }

  lemma DecomposeSplitsParent(g: Graph, g': Graph, c: Cell, children: seq<ChildSpec>)
    requires GoodSplit(g, c, children) && Decomposed(g, g', c, children)
    ensures Split(g', c.cellId)
  {
    var ids := ChildIds(children);
    forall j, k | j in ids && k in ids && j != k
      ensures SetOf(g'.cells[j].obligations) !! SetOf(g'.cells[k].obligations)
    {
      SplitChildrenAreDisjoint(g, g', c, children, j, k);
    }
    forall o | o in c.obligations ensures exists k :: k in ids && o in g'.cells[k].obligations {
      assert o in Covered(children);
      var i :| 0 <= i < |children| && o in children[i].obligations;
      assert ids[i] in ids && o in g'.cells[ids[i]].obligations;
    }
  }

  lemma DecomposeKeepsOtherSplit(g: Graph, g': Graph, c: Cell, children: seq<ChildSpec>, id: Id)
    requires Decomposed(g, g', c, children) && c.cellId in g.cells && c == g.cells[c.cellId]
    requires id in g.cells && id != c.cellId && Split(g, id)
    ensures Split(g', id)
  {
    assert forall k | k in g.cells :: k in g'.cells && SamePlace(g.cells[k], g'.cells[k]);
    var p := g'.cells[id];
    assert p == g.cells[id];
    forall o | p.children != [] && o in p.obligations
      ensures exists j :: j in p.children && o in g'.cells[j].obligations
    {
      var j :| j in p.children && o in g.cells[j].obligations;
      assert o in g'.cells[j].obligations;
    }
  }

  lemma DecomposeKeepsCell(g: Graph, g': Graph, c: Cell, children: seq<ChildSpec>, id: Id)
    requires Inv(g) && c.cellId in g.cells && c == g.cells[c.cellId] && id in g'.cells
    requires g.def.KindOf(c.phase) == Children && GoodSplit(g, c, children) && Decomposed(g, g', c, children)
    ensures ConsistentAt(g', id) && Placed(g', id) && Split(g', id)
  {
    DecomposeKeepsConsistent(g, g', c, children, id);
    DecomposeKeepsPlaced(g, g', c, children, id);
    if id == c.cellId {
      DecomposeSplitsParent(g, g', c, children);
    } else if id in g.cells {
      assert Split(g, id);
      DecomposeKeepsOtherSplit(g, g', c, children, id);
    } else {
      var i :| 0 <= i < |children| && ChildIds(children)[i] == id;
    }
  }

  lemma DecomposeKeepsInv(g: Graph, c: Cell, children: seq<ChildSpec>)
    requires Inv(g) && c.cellId in g.cells && c == g.cells[c.cellId]
    ensures var g' := DecomposeOp(g, c, children).graph; Inv(g') && Newer(g, g')
  {
    var g' := DecomposeOp(g, c, children).graph;
    if DecomposeOp(g, c, children).error == None {
      DecomposeEffect(g, c, children);
      forall id | id in g'.cells ensures ConsistentAt(g', id) && Placed(g', id) && Split(g', id) {
        DecomposeKeepsCell(g, g', c, children, id);
      }
      forall a, b | IsRoot(g', a) && IsRoot(g', b) ensures a == b {
        DecomposeKeepsPlaced(g, g', c, children, a);
        DecomposeKeepsPlaced(g, g', c, children, b);
      }
    }
  }

  // -------------------------------------------------------------- every run

  /** Every call on one existing Cell other than a decomposition. */
  lemma EarlyStepRewrites(g: Graph, c: Cell, op: Op)
    requires Sound(g, c)
    requires op.AcceptContract? || op.FreezeTests? || op.ReviseTests? || op.RecordPlan? || op.RecordPreReview?
    ensures var o := ApplyTo(g, c, op);
            && Rewrites(g, o.graph, c.cellId)
            && (!op.ReviseTests? ==> Advances(g, o.graph, c.cellId) && AllOrNothing(g, o))
  {
    match op
    case AcceptContract(_) => AcceptContractRewrites(g, c);
    case FreezeTests(_, b) => FreezeTestsRewrites(g, c, b);
    case ReviseTests(_, b) => ReviseTestsRewrites(g, c, b);
    case RecordPlan(_, d, r) => RecordPlanRewrites(g, c, d, r);
    case RecordPreReview(_, accepted, leaf, seams) => RecordPreReviewRewrites(g, c, accepted, leaf, seams);
  }

  lemma CellStepRewrites(g: Graph, c: Cell, op: Op)
    requires Sound(g, c) && !op.CreateRoot? && !op.Decompose? && !op.RouteVerifiedIssue?
    ensures Rewrites(g, ApplyTo(g, c, op).graph, c.cellId)
    ensures !Backward(op) ==> Advances(g, ApplyTo(g, c, op).graph, c.cellId)
    ensures !Backward(op) && !(op.RecordIntegration? && g.def.KindOf(c.phase) == Children) ==>
              AllOrNothing(g, ApplyTo(g, c, op))
  {
    match op
    case AcceptContract(_) => EarlyStepRewrites(g, c, op);
    case FreezeTests(_, _) => EarlyStepRewrites(g, c, op);
    case ReviseTests(_, _) => EarlyStepRewrites(g, c, op);
    case RecordPlan(_, _, _) => EarlyStepRewrites(g, c, op);
    case RecordPreReview(_, _, _, _) => EarlyStepRewrites(g, c, op);
    case RecordVerification(_, passed, refs) => RecordVerificationRewrites(g, c, passed, refs);
    case BeginIntegration(_) => BeginIntegrationRewrites(g, c);
    case RecordIntegration(_, passed, refs) => RecordIntegrationRewrites(g, c, passed, refs);
    case Close(_) => CloseRewrites(g, c);
    case Reopen(_) => ReopenRewrites(g, c);
    case RecordPostReview(_, accepted, refs) => PostReviewRewrites(g, c, accepted, refs);
    case AddClaim(_, claimId, claim) => ClaimsRewrite(g, c, claimId, claim, "", "");
    case ResolveClaim(_, claimId, r, v) => ClaimsRewrite(g, c, claimId, NewClaim("", None, []), r, v);
    case AddApproval(_, reviewer) => ApprovalRewrites(g, c, reviewer);
  }

  /** The call offers a result to a composite that is ready for integration but
      has not begun it. */
  predicate BeginsUnasked(g: Graph, op: Op) {
    && op.RecordIntegration? && op.id in g.cells && g.Kind(op.id) == Children
    && g.cells[op.id].children != [] && ChildrenClosed(g, g.cells[op.id])
  }

  /** A refused integration result leaves its Cell in integration, if it was ready. */
  lemma RefusedResultBegins(g: Graph, op: Op)
    requires Inv(g) && op.RecordIntegration? && Apply(g, op).error.Some?
    ensures BeginsUnasked(g, op) ==> op.id in Apply(g, op).graph.cells && Apply(g, op).graph.Kind(op.id) == Integration
    ensures !BeginsUnasked(g, op) ==> Apply(g, op).graph == g
  {
    if op.id in g.cells {
      assert ConsistentAt(g, op.id);
      var c := g.cells[op.id];
      BeginIntegrationRewrites(g, c);
      var begun := BeginIntegrationOp(g, c);
      if g.Kind(op.id) == Integration || (begun.error == None && begun.graph.Kind(op.id) == Integration) {
        var now := if g.Kind(op.id) == Integration then g else begun.graph;
        IntegratedRewrites(now, now.cells[op.id]);
      }
    }
  }

  lemma RefusedBackwardCall(g: Graph, op: Op)
    requires Inv(g) && Backward(op) && Apply(g, op).error.Some?
    ensures Apply(g, op).graph == g
  {
    PhaseForKindFound(g.def, Plan);
    PhaseForKindFound(g.def, PreReview);
    PhaseForKindFound(g.def, PostReview);
    if op.RouteVerifiedIssue? {
      var lca := LowestCommonAncestor(g, op.affected);
      if lca.Some? && lca.value in g.cells { assert ConsistentAt(g, lca.value); }
    }
  }

  /** A refused call changes nothing exactly if it is not an integration result that
      begins integration unasked. */
  lemma RefusalChangesNothing(g: Graph, op: Op)
    requires Inv(g) && Apply(g, op).error.Some?
    ensures Apply(g, op).graph == g <==> !BeginsUnasked(g, op)
  {
    if op.RecordIntegration? {
      RefusedResultBegins(g, op);
    } else if Backward(op) {
      RefusedBackwardCall(g, op);
    } else if !op.CreateRoot? && op.id in g.cells && !op.Decompose? {
      assert ConsistentAt(g, op.id);
      CellStepRewrites(g, g.cells[op.id], op);
    }
  }

  /** Every call, accepted or refused, keeps the invariant and dates forward. */
  lemma StepKeepsInv(g: Graph, op: Op)
    requires Inv(g)
    ensures Inv(Apply(g, op).graph) && Newer(g, Apply(g, op).graph)
  {
    if op.CreateRoot? {
      RootKeepsInv(g, op);
    } else if op.RouteVerifiedIssue? {
      var lca := LowestCommonAncestor(g, op.affected);
      if lca.Some? && lca.value in g.cells {
        assert ConsistentAt(g, lca.value);
        RouteRewrites(g, lca.value, op.claimId, op.proposition, op.evidence);
        RewriteKeepsInv(g, Apply(g, op).graph, lca.value);
      }
    } else if op.id in g.cells {
      assert ConsistentAt(g, op.id);
      if op.Decompose? {
        DecomposeKeepsInv(g, g.cells[op.id], op.children);
      } else {
        CellStepRewrites(g, g.cells[op.id], op);
        RewriteKeepsInv(g, Apply(g, op).graph, op.id);
      }
    }
  }

  /** The graph invariant over all runs. */
  lemma {:induction false} EveryRunKeepsInv(runId: string, def: Definition, ops: seq<Op>)
    requires WellShaped(def)
    ensures Inv(Run(Fresh(runId, def), ops))
  {
    if ops != [] {
      EveryRunKeepsInv(runId, def, ops[..|ops| - 1]);
      StepKeepsInv(Run(Fresh(runId, def), ops[..|ops| - 1]), ops[|ops| - 1]);
    }
  }

  lemma {:induction false} RunKeepsInv(g: Graph, ops: seq<Op>)
    requires Inv(g)
    ensures Inv(Run(g, ops)) && Newer(g, Run(g, ops))
  {
    if ops != [] {
      RunKeepsInv(g, ops[..|ops| - 1]);
      StepKeepsInv(Run(g, ops[..|ops| - 1]), ops[|ops| - 1]);
    }
  }

  /** The flags in plain words, for every Cell of every run. */
  lemma FlagsMatchPhase(runId: string, def: Definition, ops: seq<Op>, id: Id)
    requires WellShaped(def) && id in Run(Fresh(runId, def), ops).cells
    ensures var g := Run(Fresh(runId, def), ops);
            var c, kind := g.cells[id], g.Kind(id);
            && ((c.verificationPassed != c.integrationPassed) <==> kind == PostReview || kind == Closed)
            && (c.verificationPassed ==> LeafReadiness(c) == [])
            && (kind == Closed ==> c.postReviewAccepted)
            && (kind == Closed ==> if c.children == [] then c.verificationPassed else c.integrationPassed)
  {
    EveryRunKeepsInv(runId, def, ops);
    assert ConsistentAt(Run(Fresh(runId, def), ops), id);
    NothingMissingIsReady(Run(Fresh(runId, def), ops).cells[id]);
  }
}
