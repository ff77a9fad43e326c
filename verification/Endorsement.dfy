/** What stands of a review: an accepted post-review belongs to a Cell that is in
    post-review or closed, and no forward call takes back a verification. */
module Endorsement {
  import opened Basics
  import opened Workflow
  import opened GraphInvariant
  import opened Promises

  predicate AcceptedInTime(d: Definition, c: Cell) {
    c.postReviewAccepted ==> d.KindOf(c.phase) == PostReview || d.KindOf(c.phase) == Closed
  }

  ghost predicate TimelyAt(g: Graph, id: Id)
    requires id in g.cells
  {
    AcceptedInTime(g.def, g.cells[id])
  }

  ghost predicate Timely(g: Graph) {
    forall id {:trigger TimelyAt(g, id)} | id in g.cells :: TimelyAt(g, id)
  }

  /** What a call may do to the flags of the Cell it works on. */
  predicate Endorses(c: Cell, c': Cell, op: Op) {
    && (c'.postReviewAccepted && !c.postReviewAccepted ==> op.RecordPostReview?)
    && (op.RecordPostReview? ==> c'.phase == c.phase)
    && (!Backward(op) && c.verificationPassed ==> c'.verificationPassed)
    && (op.ReviseTests? && c' != c ==> !c'.postReviewAccepted)
  }

  // ---------- call by call ----------

  lemma EarlyCallEndorses(g: Graph, c: Cell, op: Op)
    requires Sound(g, c)
    requires op.AcceptContract? || op.FreezeTests? || op.ReviseTests? || op.RecordPlan? || op.RecordPreReview?
    ensures c.cellId in ApplyTo(g, c, op).graph.cells
    ensures Endorses(c, ApplyTo(g, c, op).graph.cells[c.cellId], op)
  {}

  lemma LateCallEndorses(g: Graph, c: Cell, op: Op)
    requires Sound(g, c)
    requires op.RecordPostReview? || op.Close? || op.Reopen?
    ensures c.cellId in ApplyTo(g, c, op).graph.cells
    ensures Endorses(c, ApplyTo(g, c, op).graph.cells[c.cellId], op)
  {}

  lemma WorkCallEndorses(g: Graph, c: Cell, op: Op)
    requires Sound(g, c) && (op.RecordVerification? || op.BeginIntegration?)
    ensures c.cellId in ApplyTo(g, c, op).graph.cells
    ensures Endorses(c, ApplyTo(g, c, op).graph.cells[c.cellId], op)
  {}

  lemma NoteEndorses(g: Graph, c: Cell, op: Op)
    requires Sound(g, c) && (op.AddClaim? || op.ResolveClaim? || op.AddApproval?)
    ensures c.cellId in ApplyTo(g, c, op).graph.cells
    ensures Endorses(c, ApplyTo(g, c, op).graph.cells[c.cellId], op)
  {}

  lemma ResultEndorses(g: Graph, c: Cell, op: Op)
    requires Sound(g, c) && op.RecordIntegration?
    ensures c.cellId in ApplyTo(g, c, op).graph.cells
    ensures Endorses(c, ApplyTo(g, c, op).graph.cells[c.cellId], op)
  {}

  lemma CallEndorses(g: Graph, c: Cell, op: Op)
    requires Sound(g, c) && !op.CreateRoot? && !op.Decompose? && !op.RouteVerifiedIssue?
    ensures c.cellId in ApplyTo(g, c, op).graph.cells
    ensures Endorses(c, ApplyTo(g, c, op).graph.cells[c.cellId], op)
  {
    match op
    case AcceptContract(_) => EarlyCallEndorses(g, c, op);
    case FreezeTests(_, _) => EarlyCallEndorses(g, c, op);
    case ReviseTests(_, _) => EarlyCallEndorses(g, c, op);
    case RecordPlan(_, _, _) => EarlyCallEndorses(g, c, op);
    case RecordPreReview(_, _, _, _) => EarlyCallEndorses(g, c, op);
    case RecordVerification(_, _, _) => WorkCallEndorses(g, c, op);
    case BeginIntegration(_) => WorkCallEndorses(g, c, op);
    case RecordIntegration(_, _, _) => ResultEndorses(g, c, op);
    case AddClaim(_, _, _) => NoteEndorses(g, c, op);
    case ResolveClaim(_, _, _, _) => NoteEndorses(g, c, op);
    case AddApproval(_, _) => NoteEndorses(g, c, op);
    case _ => LateCallEndorses(g, c, op);
  }

  lemma MovedStaysTimely(d: Definition, c: Cell, c': Cell, op: Op)
    requires Endorses(c, c', op) && Moved(d, c, c', op) && AcceptedInTime(d, c) && Consistent(d, c')
    requires op.RecordPostReview? && c'.postReviewAccepted ==> c.postReviewAccepted || d.KindOf(c.phase) == PostReview
    requires op.Reopen? ==> c' == c || d.KindOf(c'.phase) == PostReview
    requires !op.RouteVerifiedIssue?
    ensures AcceptedInTime(d, c')
  {
    if c'.postReviewAccepted && c.postReviewAccepted && !Backward(op) {
      assert Stage(d.KindOf(c'.phase)) >= 6;
    }
  }

  lemma OwnCallStaysTimely(g: Graph, op: Op)
    requires Inv(g) && !op.CreateRoot? && !op.Decompose? && !op.RouteVerifiedIssue? && op.id in g.cells
    requires TimelyAt(g, op.id)
    ensures op.id in Apply(g, op).graph.cells && TimelyAt(Apply(g, op).graph, op.id)
  {
    var c := g.cells[op.id];
    assert ConsistentAt(g, op.id);
    CallEndorses(g, c, op);
    EveryStepMoves(g, op, op.id);
    StepKeepsInv(g, op);
    assert ConsistentAt(Apply(g, op).graph, op.id);
    PhaseForKindFound(g.def, PostReview);
    MovedStaysTimely(g.def, c, Apply(g, op).graph.cells[op.id], op);
  }

  lemma RoutedStaysTimely(g: Graph, op: Op)
    requires Inv(g) && op.RouteVerifiedIssue? && Timely(g)
    ensures Timely(Apply(g, op).graph)
  {
    PhaseForKindFound(g.def, PreReview);
    var g' := Apply(g, op).graph;
    var lca := LowestCommonAncestor(g, op.affected);
    if lca.Some? && lca.value in g.cells {
      assert ConsistentAt(g, lca.value);
      RouteRewrites(g, lca.value, op.claimId, op.proposition, op.evidence);
      forall id | id in g'.cells ensures TimelyAt(g', id) { assert TimelyAt(g, id); }
    }
  }

  lemma DecomposeStaysTimely(g: Graph, op: Op)
    requires Inv(g) && op.Decompose? && op.id in g.cells && Timely(g)
    ensures Timely(Apply(g, op).graph)
  {
    var g' := Apply(g, op).graph;
    if Apply(g, op).error == None {
      assert ConsistentAt(g, op.id);
      DecomposeEffect(g, g.cells[op.id], op.children);
      forall id | id in g'.cells ensures TimelyAt(g', id) {
        if id in g.cells {
          assert TimelyAt(g, id);
        } else {
          var i :| 0 <= i < |op.children| && ChildIds(op.children)[i] == id;
        }
      }
    }
  }

  /** Every call keeps accepted post-reviews in time. */
  lemma StepStaysTimely(g: Graph, op: Op)
    requires Inv(g) && Timely(g)
    ensures Timely(Apply(g, op).graph)
  {
    var g' := Apply(g, op).graph;
    if op.RouteVerifiedIssue? {
      RoutedStaysTimely(g, op);
    } else if !op.CreateRoot? && op.id in g.cells {
      if op.Decompose? {
        DecomposeStaysTimely(g, op);
      } else {
        assert ConsistentAt(g, op.id);
        CellStepRewrites(g, g.cells[op.id], op);
        forall id | id in g'.cells ensures TimelyAt(g', id) {
          assert TimelyAt(g, id);
          if id == op.id { OwnCallStaysTimely(g, op); }
        }
      }
    } else {
      forall id | id in g'.cells ensures TimelyAt(g', id) { assert id in g.cells ==> TimelyAt(g, id); }
    }
  }

  /** In every run, backward calls included, a Cell whose post-review stands accepted
      is in post-review or closed, and its verification or integration stands. */
  lemma {:induction false} EveryRunIsTimely(runId: string, def: Definition, ops: seq<Op>)
    requires WellShaped(def)
    ensures var g := Run(Fresh(runId, def), ops);
            Timely(g) && forall id | id in g.cells && g.cells[id].postReviewAccepted ::
              g.Kind(id) in {PostReview, Closed} && !Unproven(g.cells[id])
  {
    EveryRunKeepsInv(runId, def, ops);
    var g := Run(Fresh(runId, def), ops);
    if ops != [] {
      EveryRunIsTimely(runId, def, ops[..|ops| - 1]);
      EveryRunKeepsInv(runId, def, ops[..|ops| - 1]);
      StepStaysTimely(Run(Fresh(runId, def), ops[..|ops| - 1]), ops[|ops| - 1]);
    }
    forall id | id in g.cells && g.cells[id].postReviewAccepted
      ensures g.Kind(id) in {PostReview, Closed} && !Unproven(g.cells[id])
    {
      assert TimelyAt(g, id) && ConsistentAt(g, id);
    }
  }

  lemma LeafStaysInPreReview(g: Graph, c: Cell, op: Op)
    requires Sound(g, c) && g.def.KindOf(c.phase) == PreReview && !Backward(op) && !op.RecordPreReview?
    requires !op.CreateRoot? && !op.Decompose?
    ensures ApplyTo(g, c, op).graph.cells[c.cellId].leaf == c.leaf
  {}

  /** A forward call never takes back a verification, and only a pre-review decides
      whether a Cell is a leaf. */
  lemma VerificationStands(g: Graph, op: Op, id: Id)
    requires Inv(g) && id in g.cells && !Backward(op)
    ensures id in Apply(g, op).graph.cells
    ensures g.cells[id].verificationPassed ==> Apply(g, op).graph.cells[id].verificationPassed
    ensures (op.RecordPreReview? && op.id == id) || Apply(g, op).graph.cells[id].leaf == g.cells[id].leaf
  {
    EveryStepMoves(g, op, id);
    assert ConsistentAt(g, id);
    if !op.CreateRoot? && !op.Decompose? && op.id == id {
      CallEndorses(g, g.cells[id], op);
      CellStepRewrites(g, g.cells[id], op);
      if g.Kind(id) == PreReview && !op.RecordPreReview? { LeafStaysInPreReview(g, g.cells[id], op); }
    } else if op.Decompose? && op.id == id && Apply(g, op).error == None {
      DecomposeEffect(g, g.cells[id], op.children);
    }
  }

  lemma DefinitionStays(g: Graph, op: Op)
    requires Inv(g)
    ensures Apply(g, op).graph.def == g.def
  {
    if g.cells != map[] {
      var id :| id in g.cells;
      EveryStepMoves(g, op, id);
    }
  }

  lemma {:induction false} EveryRunKeepsDefinition(runId: string, def: Definition, ops: seq<Op>)
    requires WellShaped(def)
    ensures Run(Fresh(runId, def), ops).def == def
  {
    if ops != [] {
      EveryRunKeepsDefinition(runId, def, ops[..|ops| - 1]);
      EveryRunKeepsInv(runId, def, ops[..|ops| - 1]);
      DefinitionStays(Run(Fresh(runId, def), ops[..|ops| - 1]), ops[|ops| - 1]);
    }
  }
}
