/** What a loaded workflow must have, beyond loading, for closing to mean review:
    less than the shape of the standard lifecycle. */
module Loading {
  import opened Basics
  import opened Workflow

  /** Some operation takes a Cell out of a phase of this kind on this outcome. */
  predicate Used(kind: Kind, outcome: string) {
    match kind
    case Contract => outcome == "accepted"
    case Tests => outcome == "frozen"
    case Plan => outcome == "planned"
    case PreReview => outcome == "leaf" || outcome == "composite"
    case Children => outcome == "integrated"
    case Implementation => outcome == "verified"
    case Integration => outcome == "verified"
    case PostReview => outcome == "accepted"
    case _ => false
  }

  predicate LeadsToClosed(d: Definition, phase: string, outcome: string) {
    d.Target(phase, outcome).Some? && d.KindOf(d.Target(phase, outcome).value) == Closed
  }

  /** Cells do not begin closed, and of the outcomes the operations use only an
      accepted post-review leads to a closed phase. */
  ghost predicate Guarded(d: Definition) {
    && d.KindOf(d.initial) != Closed
    && forall p, o {:trigger LeadsToClosed(d, p, o)} ::
         Used(d.KindOf(p), o) && LeadsToClosed(d, p, o) ==> d.KindOf(p) == PostReview
  }

  lemma WellShapedIsGuarded(d: Definition)
    requires WellShaped(d)
    ensures Guarded(d)
  {
    forall p, o {:trigger LeadsToClosed(d, p, o)} | Used(d.KindOf(p), o) && LeadsToClosed(d, p, o)
      ensures d.KindOf(p) == PostReview
    {
      var k := d.KindOf(p);
      assert Link(Contract, "accepted", Tests) && Link(Tests, "frozen", Plan) && Link(Plan, "planned", PreReview);
      assert Link(PreReview, "leaf", Implementation) && Link(PreReview, "composite", Children);
      assert Link(Children, "integrated", Integration) && Link(Implementation, "verified", PostReview);
      assert Link(Integration, "verified", PostReview);
    }
  }

  /** Cells are stored under their own ids. */
  predicate Keyed(g: Graph) {
    forall id | id in g.cells :: g.cells[id].cellId == id
  }

  predicate AtHome(g: Graph, c: Cell) {
    c.cellId in g.cells && g.cells[c.cellId] == c
  }

  /** What closing rests on. */
  predicate ReviewedClosing(g: Graph, op: Op, id: Id) {
    && op == Close(id) && id in g.cells && g.Kind(id) == PostReview
    && g.cells[id].postReviewAccepted && !HasBlockingClaim(g.cells[id])
    && (g.cells[id].children == [] ==> g.cells[id].verificationPassed)
    && (g.cells[id].children != [] ==> g.cells[id].integrationPassed && ChildrenClosed(g, g.cells[id]))
  }

  /** g' is g but for one Cell, which closes only by a reviewed closing. */
  ghost predicate ClosesReviewed(g: Graph, g': Graph, c: Cell, op: Op) {
    && g'.def == g.def && c.cellId in g'.cells && g'.cells == g.cells[c.cellId := g'.cells[c.cellId]]
    && g'.cells[c.cellId].cellId == c.cellId
    && (g'.IsClosed(c.cellId) && !g.IsClosed(c.cellId) ==> ReviewedClosing(g, op, c.cellId))
  }

  lemma Enters(g: Graph, c: Cell, outcome: string)
    requires Guarded(g.def) && Used(g.def.KindOf(c.phase), outcome) && g.def.KindOf(c.phase) != PostReview
    ensures g.def.Target(c.phase, outcome).Some? ==> g.def.KindOf(g.def.Target(c.phase, outcome).value) != Closed
  {
    assert !LeadsToClosed(g.def, c.phase, outcome);
  }

  lemma EarlyCallCloses(g: Graph, c: Cell, op: Op)
    requires Guarded(g.def) && AtHome(g, c) && (op.AcceptContract? || op.FreezeTests?) && op.id == c.cellId
    ensures ClosesReviewed(g, ApplyTo(g, c, op).graph, c, op)
  {
    match g.def.KindOf(c.phase)
    case Contract => Enters(g, c, "accepted");
    case Tests => Enters(g, c, "frozen");
    case _ =>
  }

  lemma PlanningCallCloses(g: Graph, c: Cell, op: Op)
    requires Guarded(g.def) && AtHome(g, c) && (op.RecordPlan? || op.RecordPreReview?) && op.id == c.cellId
    ensures ClosesReviewed(g, ApplyTo(g, c, op).graph, c, op)
  {
    match g.def.KindOf(c.phase)
    case Plan => Enters(g, c, "planned");
    case PreReview => Enters(g, c, "leaf"); Enters(g, c, "composite");
    case _ =>
  }

  lemma WorkCallCloses(g: Graph, c: Cell, op: Op)
    requires Guarded(g.def) && AtHome(g, c) && !op.RouteVerifiedIssue? && op.id == c.cellId
    requires op.RecordVerification? || op.BeginIntegration?
    ensures ClosesReviewed(g, ApplyTo(g, c, op).graph, c, op)
  {
    match g.def.KindOf(c.phase)
    case Children => Enters(g, c, "integrated");
    case Implementation => Enters(g, c, "verified");
    case _ =>
  }

  lemma ResultCloses(g: Graph, c: Cell, op: Op)
    requires Guarded(g.def) && AtHome(g, c) && !op.RouteVerifiedIssue? && op.id == c.cellId && op.RecordIntegration?
    ensures ClosesReviewed(g, ApplyTo(g, c, op).graph, c, op)
  {
    match g.def.KindOf(c.phase)
    case Children =>
      Enters(g, c, "integrated");
      var begun := BeginIntegrationOp(g, c);
      if begun.error.None? { Enters(g, begun.graph.cells[c.cellId], "verified"); }
    case Integration => Enters(g, c, "verified");
    case _ =>
  }

  lemma RevisionCloses(g: Graph, c: Cell, op: Op)
    requires AtHome(g, c) && op.ReviseTests? && op.id == c.cellId
    ensures ClosesReviewed(g, ApplyTo(g, c, op).graph, c, op)
  {
    NamedKind(g.def, Plan);
    var c' := Unplanned(Frozen(c, op.basis));
    assert c'.cellId == c.cellId && c'.phase == c.phase;
  }

  lemma ReopeningCloses(g: Graph, c: Cell, op: Op)
    requires AtHome(g, c) && op.Reopen? && op.id == c.cellId
    ensures ClosesReviewed(g, ApplyTo(g, c, op).graph, c, op)
  {
    NamedKind(g.def, PostReview);
  }

  lemma NamedKind(d: Definition, kind: Kind)
    ensures PhaseForKind(d, kind).Some? ==> d.KindOf(PhaseForKind(d, kind).value) == kind
  {
    if PhaseForKind(d, kind).Some? {
      var p :| d.PhasesOfKind(kind) == {p} && p == PhaseForKind(d, kind).value;
      assert p in d.PhasesOfKind(kind);
    }
  }

  lemma OtherCallCloses(g: Graph, c: Cell, op: Op)
    requires AtHome(g, c) && !op.RouteVerifiedIssue? && op.id == c.cellId
    requires op.RecordPostReview? || op.AddClaim? || op.ResolveClaim? || op.AddApproval? || op.Close?
    ensures ClosesReviewed(g, ApplyTo(g, c, op).graph, c, op)
  {}

  lemma RouteCloses(g: Graph, c: Cell, op: Op)
    requires AtHome(g, c) && op.RouteVerifiedIssue?
    ensures ClosesReviewed(g, RouteTo(g, c, op.claimId, op.proposition, op.evidence).graph, c, op)
  {
    NamedKind(g.def, PreReview);
  }

  lemma {:induction false} ChildrenStayOpen(g: Graph, c: Cell, children: seq<ChildSpec>)
    requires g.def.KindOf(g.def.initial) != Closed && Keyed(g)
    ensures var g' := AddChildren(g, c, children);
            g'.def == g.def && Keyed(g') && forall id | g'.IsClosed(id) :: g.IsClosed(id)
  {
    if children != [] { ChildrenStayOpen(g, c, children[..|children| - 1]); }
  }

  lemma DecomposeCloses(g: Graph, op: Op, id: Id)
    requires Guarded(g.def) && Keyed(g) && op.Decompose? && op.id in g.cells
    ensures var g' := Apply(g, op).graph;
            g'.def == g.def && Keyed(g') && (g'.IsClosed(id) ==> g.IsClosed(id))
  {
    ChildrenStayOpen(g, g.cells[op.id], op.children);
  }

  lemma CallCloses(g: Graph, op: Op)
    requires Guarded(g.def) && Keyed(g) && !op.RouteVerifiedIssue? && op.id in g.cells
    requires !op.CreateRoot? && !op.Decompose?
    ensures ClosesReviewed(g, Apply(g, op).graph, g.cells[op.id], op)
  {
    var c := g.cells[op.id];
    match op
    case RecordVerification(_, _, _) => WorkCallCloses(g, c, op);
    case BeginIntegration(_) => WorkCallCloses(g, c, op);
    case RecordIntegration(_, _, _) => ResultCloses(g, c, op);
    case ReviseTests(_, _) => RevisionCloses(g, c, op);
    case Reopen(_) => ReopeningCloses(g, c, op);
    case RecordPostReview(_, _, _) => OtherCallCloses(g, c, op);
    case AddClaim(_, _, _) => OtherCallCloses(g, c, op);
    case ResolveClaim(_, _, _, _) => OtherCallCloses(g, c, op);
    case AddApproval(_, _) => OtherCallCloses(g, c, op);
    case Close(_) => OtherCallCloses(g, c, op);
    case RecordPlan(_, _, _) => PlanningCallCloses(g, c, op);
    case RecordPreReview(_, _, _, _) => PlanningCallCloses(g, c, op);
    case _ => EarlyCallCloses(g, c, op);
  }

  lemma RoutingCloses(g: Graph, op: Op, id: Id)
    requires Keyed(g) && op.RouteVerifiedIssue?
    ensures var g' := Apply(g, op).graph;
            g'.def == g.def && Keyed(g') && (g'.IsClosed(id) ==> g.IsClosed(id))
  {
    var lca := LowestCommonAncestor(g, op.affected);
    if lca.Some? && lca.value in g.cells { RouteCloses(g, g.cells[lca.value], op); }
  }

  /** Under a guarded definition a Cell enters a closed phase only by closing after an
      accepted post-review, with its verification or integration standing and no
      verified claim open. */
  lemma ClosingIsReviewed(g: Graph, op: Op, id: Id)
    requires Guarded(g.def) && Keyed(g)
    ensures Apply(g, op).graph.def == g.def && Keyed(Apply(g, op).graph)
    ensures Apply(g, op).graph.IsClosed(id) && !g.IsClosed(id) ==> ReviewedClosing(g, op, id)
  {
    if op.CreateRoot? {
    } else if op.RouteVerifiedIssue? {
      RoutingCloses(g, op, id);
    } else if op.id in g.cells {
      if op.Decompose? { DecomposeCloses(g, op, id); } else { CallCloses(g, op); }
    }
  }

  lemma {:induction false} GuardedRunIsKeyed(runId: string, def: Definition, ops: seq<Op>)
    requires Guarded(def)
    ensures Run(Fresh(runId, def), ops).def == def && Keyed(Run(Fresh(runId, def), ops))
  {
    if ops != [] {
      GuardedRunIsKeyed(runId, def, ops[..|ops| - 1]);
      ClosingIsReviewed(Run(Fresh(runId, def), ops[..|ops| - 1]), ops[|ops| - 1], "");
    }
  }

  /** In every run of a guarded definition, well shaped or not, a closed Cell was
      closed by a reviewed closing. */
  lemma {:induction false} NothingClosesUnreviewed(runId: string, def: Definition, ops: seq<Op>, id: Id)
      returns (n: nat)
    requires Guarded(def) && Run(Fresh(runId, def), ops).IsClosed(id)
    ensures n < |ops| && ReviewedClosing(Run(Fresh(runId, def), ops[..n]), ops[n], id)
  {
    var last := |ops| - 1;
    var g := Run(Fresh(runId, def), ops[..last]);
    GuardedRunIsKeyed(runId, def, ops[..last]);
    ClosingIsReviewed(g, ops[last], id);
    if g.IsClosed(id) {
      n := NothingClosesUnreviewed(runId, def, ops[..last], id);
      assert ops[..last][..n] == ops[..n];
    } else {
      n := last;
    }
  }

  // ---------- the guard is needed ----------

  ghost predicate ClosesUnreviewed(g: Graph, op: Op, id: Id) {
    Keyed(g) && Apply(g, op).graph.IsClosed(id) && !g.IsClosed(id) && !ReviewedClosing(g, op, id)
  }

  const REFS := References("contract", None, None, None)
  const BASIS := TestBasis("visible", "holdout", map["o" := ["test"]], true)

  /** A Cell in the phase that has all any call asks for, over a closed child. */
  function Able(phase: string, leaf: bool): Cell {
    Cell("c", None, REFS, ["o"], ["c"], 0, phase, Some("owner"), 1, Some("visible"), Some("holdout"),
        map["o" := ["test"]],
         true, Some("plan"), map["o" := "owner"], true, Some(leaf), [], if leaf then [] else ["k"], false, false, false,
         map[], [])
  }

  function Ground(d: Definition, phase: string, closed: string, leaf: bool): Graph {
    Graph("run", d, map["c" := Able(phase, leaf), "k" := Able(closed, true).(cellId := "k")], [])
  }

  function CallOf(kind: Kind, outcome: string): Op {
    match kind
    case Contract => AcceptContract("c")
    case Tests => FreezeTests("c", BASIS)
    case Plan => RecordPlan("c", "plan", map["o" := "owner"])
    case PreReview => RecordPreReview("c", true, outcome == "leaf", [])
    case Children => Op.BeginIntegration("c")
    case Implementation => RecordVerification("c", true, ["evidence"])
    case _ => RecordIntegration("c", true, ["evidence"])
  }

  lemma AbleLeafIsReady(phase: string)
    ensures LeafReadiness(Able(phase, true)) == [] && GoodBasis(Able(phase, true), BASIS)
    ensures GoodPlan(Able(phase, true), map["o" := "owner"])
  {
    var c := Able(phase, true);
    assert c.obligationMap.Keys == {"o"} == SetOf(c.obligations) && c.responsibilities.Keys == {"o"};
    assert c.responsibilities["o"] == "owner";
    assert !Unowned(c) && !ObligationsUntested(c);
    NothingMissingIsReady(c);
  }

  /** The phase leads to a closed one, and is not a post-review. */
  predicate Misled(d: Definition, p: string, o: string, closed: string) {
    Used(d.KindOf(p), o) && LeadsToClosed(d, p, o) && d.KindOf(p) != PostReview && d.KindOf(closed) == Closed
  }

  lemma EarlyPhaseCloses(d: Definition, p: string, o: string, closed: string)
    requires Misled(d, p, o, closed) && (d.KindOf(p) == Contract || d.KindOf(p) == Tests)
    ensures Apply(Ground(d, p, closed, d.KindOf(p) != Children), CallOf(d.KindOf(p), o)).graph.IsClosed("c")
  {
    AbleLeafIsReady(p);
  }

  lemma PlanCloses(d: Definition, p: string, o: string, closed: string)
    requires Misled(d, p, o, closed) && d.KindOf(p) == Plan
    ensures Apply(Ground(d, p, closed, d.KindOf(p) != Children), CallOf(d.KindOf(p), o)).graph.IsClosed("c")
  {
    AbleLeafIsReady(p);
  }

  lemma PreReviewCloses(d: Definition, p: string, o: string, closed: string)
    requires Misled(d, p, o, closed) && d.KindOf(p) == PreReview
    ensures Apply(Ground(d, p, closed, d.KindOf(p) != Children), CallOf(d.KindOf(p), o)).graph.IsClosed("c")
  {}

  lemma ImplementationCloses(d: Definition, p: string, o: string, closed: string)
    requires Misled(d, p, o, closed) && d.KindOf(p) == Implementation
    ensures Apply(Ground(d, p, closed, d.KindOf(p) != Children), CallOf(d.KindOf(p), o)).graph.IsClosed("c")
  {
    AbleLeafIsReady(p);
  }

  lemma IntegrationCloses(d: Definition, p: string, o: string, closed: string)
    requires Misled(d, p, o, closed) && d.KindOf(p) == Integration
    ensures Apply(Ground(d, p, closed, d.KindOf(p) != Children), CallOf(d.KindOf(p), o)).graph.IsClosed("c")
  {}

  lemma ChildrenCloses(d: Definition, p: string, o: string, closed: string)
    requires Misled(d, p, o, closed) && d.KindOf(p) == Children
    ensures Apply(Ground(d, p, closed, false), Op.BeginIntegration("c")).graph.IsClosed("c")
  {
    var g := Ground(d, p, closed, false);
    assert "c"[0] != "k"[0];
    assert g.IsClosed("k") && ChildrenClosed(g, g.cells["c"]);
  }

  lemma PhaseCloses(d: Definition, p: string, o: string, closed: string)
    requires Misled(d, p, o, closed)
    ensures Apply(Ground(d, p, closed, d.KindOf(p) != Children), CallOf(d.KindOf(p), o)).graph.IsClosed("c")
  {
    match d.KindOf(p) {
      case Contract => EarlyPhaseCloses(d, p, o, closed);
      case Tests => EarlyPhaseCloses(d, p, o, closed);
      case Plan => PlanCloses(d, p, o, closed);
      case PreReview => PreReviewCloses(d, p, o, closed);
      case Implementation => ImplementationCloses(d, p, o, closed);
      case Integration => IntegrationCloses(d, p, o, closed);
      case _ => ChildrenCloses(d, p, o, closed);
    }
  }

  lemma UnguardedPhaseCloses(d: Definition, p: string, o: string, closed: string)
    requires Misled(d, p, o, closed)
    ensures ClosesUnreviewed(Ground(d, p, closed, d.KindOf(p) != Children), CallOf(d.KindOf(p), o), "c")
  {
    PhaseCloses(d, p, o, closed);
    assert "c"[0] != "k"[0];
    assert d.KindOf(p) != Closed;
  }

  /** For a definition that loads, the guard is exactly what makes every closing a
      reviewed one: without it some call closes a Cell of some graph unreviewed. The
      graphs are all those with each Cell under its own id, reached by a run or not. */
  lemma GuardedExactly(d: Definition)
    requires Loadable(d)
    ensures Guarded(d) <==> forall g: Graph, op, id {:trigger ClosesUnreviewed(g, op, id)} :: g.def == d ==>
        !ClosesUnreviewed(g, op, id)
  {
    if Guarded(d) {
      forall g: Graph, op, id {:trigger ClosesUnreviewed(g, op, id)} | g.def == d ensures !ClosesUnreviewed(g, op, id) {
        if Keyed(g) { ClosingIsReviewed(g, op, id); }
      }
    } else if d.KindOf(d.initial) == Closed {
      assert ClosesUnreviewed(Fresh("run", d), CreateRoot("c", REFS, ["o"], []), "c");
    } else {
      var p, o :| Used(d.KindOf(p), o) && LeadsToClosed(d, p, o) && d.KindOf(p) != PostReview;
      assert d.PhasesOfKind(Closed) != {};
      var closed :| closed in d.PhasesOfKind(Closed);
      UnguardedPhaseCloses(d, p, o, closed);
      assert Ground(d, p, closed, d.KindOf(p) != Children).def == d;
    }
  }
}
