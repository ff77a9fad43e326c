/** What the seventeen operations promise about one Cell over a whole run: stages,
    frozen tests, and claims that block closing. */
module Promises {
  import opened Basics
  import opened Workflow
  import opened GraphInvariant

  /** How far along the lifecycle a kind is. */
  function Stage(k: Kind): nat {
    match k
    case Contract => 0
    case Tests => 1
    case Plan => 2
    case PreReview => 3
    case Implementation => 4
    case Children => 4
    case Integration => 5
    case PostReview => 6
    case Closed => 7
    case Other(_) => 0
  }

  datatype Basis = Basis(visible: Option<string>, holdout: Option<string>, tests: map<Id, seq<string>>,
      executable: bool)

  function BasisOf(c: Cell): Basis {
    Basis(c.visibleTests, c.holdoutTests, c.obligationMap, c.testsExecutable)
  }

  /** Neither verification nor integration stands. */
  predicate Unproven(c: Cell) {
    !c.verificationPassed && !c.integrationPassed
  }

  predicate Resolves(op: Op, claimId: Id) {
    op.ResolveClaim? && op.claimId == claimId
  }

  predicate Blocked(c: Cell, claimId: Id) {
    claimId in c.claims && Blocking(c.claims[claimId])
  }

  /** What a call may do to the Cell it works on. */
  ghost predicate Moved(d: Definition, c: Cell, c': Cell, op: Op) {
    var k, k' := d.KindOf(c.phase), d.KindOf(c'.phase);
    && (!Backward(op) ==> Stage(k) <= Stage(k'))
    && (BasisOf(c') != BasisOf(c) ==>
          ((op.FreezeTests? && k == Tests) || op.ReviseTests?) && k' == Plan && Unproven(c'))
    && (forall claimId | Blocked(c, claimId) && !Resolves(op, claimId) :: Blocked(c', claimId))
    && (k' == Closed && k != Closed ==> op.Close? && !HasBlockingClaim(c))
  }

  lemma StaysPut(d: Definition, c: Cell, op: Op)
    ensures Moved(d, c, c, op)
  {}

  // ---------- call by call ----------

  lemma ContractMoves(g: Graph, c: Cell, op: Op)
    requires Sound(g, c) && op.AcceptContract?
    ensures c.cellId in ApplyTo(g, c, op).graph.cells
    ensures Moved(g.def, c, ApplyTo(g, c, op).graph.cells[c.cellId], op)
  {
    if g.def.KindOf(c.phase) == Contract { TransitionEnters(g, c, "accepted", Tests); }
  }

  lemma TestsMove(g: Graph, c: Cell, op: Op)
    requires Sound(g, c) && op.FreezeTests?
    ensures c.cellId in ApplyTo(g, c, op).graph.cells
    ensures Moved(g.def, c, ApplyTo(g, c, op).graph.cells[c.cellId], op)
  {
    if g.def.KindOf(c.phase) == Tests {
      TransitionEnters(Put(g, Frozen(c, op.basis), "tests.frozen"), Frozen(c, op.basis), "frozen", Plan);
    }
  }

  lemma PlanMoves(g: Graph, c: Cell, op: Op)
    requires Sound(g, c) && op.RecordPlan?
    ensures c.cellId in ApplyTo(g, c, op).graph.cells
    ensures Moved(g.def, c, ApplyTo(g, c, op).graph.cells[c.cellId], op)
  {
    if g.def.KindOf(c.phase) == Plan {
      var c' := c.(planDigest := Some(op.planDigest), responsibilities := op.responsibilities);
      TransitionEnters(Put(g, c', "plan.recorded"), c', "planned", PreReview);
    }
  }

  lemma LeafReviewMoves(g: Graph, c: Cell, op: Op)
    requires Sound(g, c) && op.RecordPreReview? && op.leaf
    ensures c.cellId in ApplyTo(g, c, op).graph.cells
    ensures Moved(g.def, c, ApplyTo(g, c, op).graph.cells[c.cellId], op)
  {
    if g.def.KindOf(c.phase) == PreReview {
      var c' := c.(preReviewAccepted := true, leaf := Some(true), seams := op.seams);
      TransitionEnters(Put(g, c', "pre_review.recorded"), c', "leaf", Implementation);
    }
  }

  lemma CompositeReviewMoves(g: Graph, c: Cell, op: Op)
    requires Sound(g, c) && op.RecordPreReview? && !op.leaf
    ensures c.cellId in ApplyTo(g, c, op).graph.cells
    ensures Moved(g.def, c, ApplyTo(g, c, op).graph.cells[c.cellId], op)
  {
    if g.def.KindOf(c.phase) == PreReview {
      var c' := c.(preReviewAccepted := true, leaf := Some(false), seams := op.seams);
      TransitionEnters(Put(g, c', "pre_review.recorded"), c', "composite", Children);
    }
  }

  lemma VerificationMoves(g: Graph, c: Cell, op: Op)
    requires Sound(g, c) && op.RecordVerification?
    ensures c.cellId in ApplyTo(g, c, op).graph.cells
    ensures Moved(g.def, c, ApplyTo(g, c, op).graph.cells[c.cellId], op)
  {
    if g.def.KindOf(c.phase) == Implementation {
      var c' := c.(verificationPassed := true);
      TransitionEnters(Put(g, c', "verification.recorded"), c', "verified", PostReview);
    }
  }

  lemma IntegrationStarts(g: Graph, c: Cell, op: Op)
    requires Sound(g, c) && op.BeginIntegration?
    ensures c.cellId in ApplyTo(g, c, op).graph.cells
    ensures Moved(g.def, c, ApplyTo(g, c, op).graph.cells[c.cellId], op)
  {
    BeginIntegrationRewrites(g, c);
  }

  lemma ClosingMoves(g: Graph, c: Cell, op: Op)
    requires Sound(g, c) && (op.RecordPostReview? || op.Close?)
    ensures c.cellId in ApplyTo(g, c, op).graph.cells
    ensures Moved(g.def, c, ApplyTo(g, c, op).graph.cells[c.cellId], op)
  {
    if g.def.KindOf(c.phase) == PostReview && op.Close? { TransitionEnters(g, c, "accepted", Closed); }
  }

  lemma IntegrationEnds(g: Graph, c: Cell)
    requires Sound(g, c) && g.def.KindOf(c.phase) == Integration
    ensures var c' := c.(integrationPassed := true);
            var t := Transition(Put(g, c', "verification.recorded"), c', "verified");
            && c.cellId in t.graph.cells && g.def.KindOf(t.graph.cells[c.cellId].phase) == PostReview
            && BasisOf(t.graph.cells[c.cellId]) == BasisOf(c) && t.graph.cells[c.cellId].claims == c.claims
  {
    var c' := c.(integrationPassed := true);
    TransitionEnters(Put(g, c', "verification.recorded"), c', "verified", PostReview);
  }

  /** Entering integration, and leaving it, move a Cell as promised. */
  lemma BeginsAndEndsMove(d: Definition, c: Cell, c': Cell, op: Op)
    requires op.RecordIntegration? && BasisOf(c') == BasisOf(c) && c'.claims == c.claims
    requires var k, k' := d.KindOf(c.phase), d.KindOf(c'.phase);
             (k == Children && k' == Integration) || ((k == Children || k == Integration) && k' == PostReview)
    ensures Moved(d, c, c', op)
  {}

  lemma IntegrationMoves(g: Graph, c: Cell, op: Op)
    requires Sound(g, c) && op.RecordIntegration?
    ensures c.cellId in ApplyTo(g, c, op).graph.cells
    ensures Moved(g.def, c, ApplyTo(g, c, op).graph.cells[c.cellId], op)
  {
    IntegrationOutcome(g, c, op);
    var c' := ApplyTo(g, c, op).graph.cells[c.cellId];
    if c' == c { StaysPut(g.def, c, op); } else { BeginsAndEndsMove(g.def, c, c', op); }
  }

  /** What an integration result can make of a Cell. */
  lemma IntegrationOutcome(g: Graph, c: Cell, op: Op)
    requires Sound(g, c) && op.RecordIntegration?
    ensures c.cellId in ApplyTo(g, c, op).graph.cells
    ensures var c' := ApplyTo(g, c, op).graph.cells[c.cellId];
            var k, k' := g.def.KindOf(c.phase), g.def.KindOf(c'.phase);
            || c' == c
            || (BasisOf(c') == BasisOf(c) && c'.claims == c.claims
                && ((k == Children && k' == Integration) || ((k == Children || k == Integration) && k' == PostReview)))
  {
    BeginIntegrationRewrites(g, c);
    var begun := if g.def.KindOf(c.phase) == Children then BeginIntegrationOp(g, c) else Done(g);
    if begun.error == None && begun.graph.Kind(c.cellId) == Integration {
      IntegrationEnds(begun.graph, begun.graph.cells[c.cellId]);
    }
  }

  lemma ClaimMoves(g: Graph, c: Cell, op: Op)
    requires Sound(g, c) && (op.AddClaim? || op.AddApproval?)
    ensures c.cellId in ApplyTo(g, c, op).graph.cells
    ensures Moved(g.def, c, ApplyTo(g, c, op).graph.cells[c.cellId], op)
  {}

  lemma ResolutionMoves(g: Graph, c: Cell, op: Op)
    requires Sound(g, c) && op.ResolveClaim?
    ensures c.cellId in ApplyTo(g, c, op).graph.cells
    ensures Moved(g.def, c, ApplyTo(g, c, op).graph.cells[c.cellId], op)
  {}

  lemma RevisedCellMoves(d: Definition, c: Cell, b: TestBasis, p: string, op: Op)
    requires op.ReviseTests? && d.KindOf(p) == Plan
    ensures Moved(d, c, Unplanned(Frozen(c, b)).(phase := p, revision := c.revision + 1), op)
  {}

  lemma RevisionMoves(g: Graph, c: Cell, op: Op)
    requires Sound(g, c) && op.ReviseTests?
    ensures c.cellId in ApplyTo(g, c, op).graph.cells
    ensures Moved(g.def, c, ApplyTo(g, c, op).graph.cells[c.cellId], op)
  {
    PhaseForKindFound(g.def, Plan);
    var p := PhaseForKind(g.def, Plan).value;
    RevisedCellMoves(g.def, c, op.basis, p, op);
    StaysPut(g.def, c, op);
    var c' := ApplyTo(g, c, op).graph.cells[c.cellId];
    assert c' == c || c' == Unplanned(Frozen(c, op.basis)).(phase := p, revision := c.revision + 1);
  }

  lemma ReopeningMoves(g: Graph, c: Cell, op: Op)
    requires Sound(g, c) && op.Reopen?
    ensures c.cellId in ApplyTo(g, c, op).graph.cells
    ensures Moved(g.def, c, ApplyTo(g, c, op).graph.cells[c.cellId], op)
  {
    PhaseForKindFound(g.def, PostReview);
  }

  lemma RouteMoves(g: Graph, c: Cell, op: Op)
    requires Sound(g, c) && op.RouteVerifiedIssue?
    ensures var r := RouteTo(g, c, op.claimId, op.proposition, op.evidence).graph;
            c.cellId in r.cells && Moved(g.def, c, r.cells[c.cellId], op)
  {
    PhaseForKindFound(g.def, PreReview);
  }

  // ---------- any call, any Cell ----------

  ghost predicate StepFor(g: Graph, op: Op, id: Id)
    requires id in g.cells
  {
    var g' := Apply(g, op).graph;
    && id in g'.cells && g'.def == g.def
    && Moved(g.def, g.cells[id], g'.cells[id], op)
    && (g'.cells[id] == g.cells[id] || op.RouteVerifiedIssue? || op.CreateRoot? || op.id == id)
  }

  lemma OwnStep(g: Graph, op: Op)
    requires Inv(g) && !op.CreateRoot? && !op.Decompose? && !op.RouteVerifiedIssue? && op.id in g.cells
    ensures StepFor(g, op, op.id)
  {
    var c := g.cells[op.id];
    assert ConsistentAt(g, op.id);
    CellStepRewrites(g, c, op);
    match op
    case AcceptContract(_) => ContractMoves(g, c, op);
    case FreezeTests(_, _) => TestsMove(g, c, op);
    case ReviseTests(_, _) => RevisionMoves(g, c, op);
    case RecordPlan(_, _, _) => PlanMoves(g, c, op);
    case RecordPreReview(_, _, leaf, _) =>
      if leaf { LeafReviewMoves(g, c, op); } else { CompositeReviewMoves(g, c, op); }
    case RecordVerification(_, _, _) => VerificationMoves(g, c, op);
    case BeginIntegration(_) => IntegrationStarts(g, c, op);
    case RecordIntegration(_, _, _) => IntegrationMoves(g, c, op);
    case RecordPostReview(_, _, _) => ClosingMoves(g, c, op);
    case Close(_) => ClosingMoves(g, c, op);
    case Reopen(_) => ReopeningMoves(g, c, op);
    case ResolveClaim(_, _, _, _) => ResolutionMoves(g, c, op);
    case _ => ClaimMoves(g, c, op);
  }

  lemma OtherStep(g: Graph, op: Op, id: Id)
    requires Inv(g) && !op.CreateRoot? && !op.Decompose? && !op.RouteVerifiedIssue? && op.id in g.cells
    requires id in g.cells && id != op.id
    ensures StepFor(g, op, id)
  {
    assert ConsistentAt(g, op.id);
    CellStepRewrites(g, g.cells[op.id], op);
    StaysPut(g.def, g.cells[id], op);
  }

  lemma DecomposeStep(g: Graph, op: Op, id: Id)
    requires Inv(g) && op.Decompose? && id in g.cells
    ensures StepFor(g, op, id)
  {
    StaysPut(g.def, g.cells[id], op);
    if op.id in g.cells && Apply(g, op).error == None {
      assert ConsistentAt(g, op.id);
      DecomposeEffect(g, g.cells[op.id], op.children);
    }
  }

  lemma RouteStep(g: Graph, op: Op, id: Id)
    requires Inv(g) && op.RouteVerifiedIssue? && id in g.cells
    ensures StepFor(g, op, id)
  {
    StaysPut(g.def, g.cells[id], op);
    var lca := LowestCommonAncestor(g, op.affected);
    if lca.Some? && lca.value in g.cells {
      assert ConsistentAt(g, lca.value);
      RouteRewrites(g, lca.value, op.claimId, op.proposition, op.evidence);
      RouteMoves(g, g.cells[lca.value], op);
    }
  }

  /** Every call treats every Cell that was there as Moved allows. */
  lemma EveryStepMoves(g: Graph, op: Op, id: Id)
    requires Inv(g) && id in g.cells
    ensures StepFor(g, op, id)
  {
    StaysPut(g.def, g.cells[id], op);
    if op.CreateRoot? {
    } else if op.Decompose? {
      DecomposeStep(g, op, id);
    } else if op.RouteVerifiedIssue? {
      RouteStep(g, op, id);
    } else if op.id in g.cells {
      if op.id == id { OwnStep(g, op); } else { OtherStep(g, op, id); }
    }
  }

  // ---------- over whole runs ----------

  /** In a forward run a Cell never falls back a stage, and once its tests were
      frozen they are the tests it keeps. */
  lemma {:induction false} FrozenTestsStay(g: Graph, ops: seq<Op>, id: Id)
    requires Inv(g) && Forward(ops) && id in g.cells
    ensures id in Run(g, ops).cells && Run(g, ops).def == g.def
    ensures Stage(g.Kind(id)) <= Stage(Run(g, ops).Kind(id))
    ensures Stage(g.Kind(id)) >= Stage(Plan) ==> BasisOf(Run(g, ops).cells[id]) == BasisOf(g.cells[id])
  {
    if ops != [] {
      var n := |ops| - 1;
      FrozenTestsStay(g, ops[..n], id);
      RunKeepsInv(g, ops[..n]);
      EveryStepMoves(Run(g, ops[..n]), ops[n], id);
    }
  }

  /** In any run, whoever changes the frozen tests of a Cell sends it to planning
      with nothing proven. */
  lemma NewTestsForgetOldResults(g: Graph, op: Op, id: Id)
    requires Inv(g) && id in g.cells
    requires id in Apply(g, op).graph.cells && BasisOf(Apply(g, op).graph.cells[id]) != BasisOf(g.cells[id])
    ensures (op.FreezeTests? && g.Kind(id) == Tests) || op.ReviseTests?
    ensures op.id == id && Apply(g, op).graph.Kind(id) == Plan && Unproven(Apply(g, op).graph.cells[id])
  {
    EveryStepMoves(g, op, id);
  }

  /** In any run, backward moves included, a Cell with a verified claim does not
      close until that claim is resolved. */
  lemma {:induction false} VerifiedClaimBlocksClosing(g: Graph, ops: seq<Op>, id: Id, claimId: Id)
    requires Inv(g) && id in g.cells && !g.IsClosed(id) && Blocked(g.cells[id], claimId)
    requires forall n | 0 <= n < |ops| && ops[n].ResolveClaim? && ops[n].id == id :: ops[n].claimId != claimId
    ensures id in Run(g, ops).cells && Run(g, ops).def == g.def
    ensures !Run(g, ops).IsClosed(id) && Blocked(Run(g, ops).cells[id], claimId)
  {
    if ops != [] {
      var n := |ops| - 1;
      VerifiedClaimBlocksClosing(g, ops[..n], id, claimId);
      RunKeepsInv(g, ops[..n]);
      EveryStepMoves(Run(g, ops[..n]), ops[n], id);
    }
  }
}
