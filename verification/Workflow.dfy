/** The Cell graph as a value: phases, Cells, and the effect of each of the
    seventeen graph operations. An operation may change the graph and still
    refuse, so every effect is an Outcome: the resulting graph and the refusal,
    if there is one. */
module Workflow {
  import opened Basics

  // ------------------------------------------------------ workflow definition

  datatype Kind =
    | Contract | Tests | Plan | PreReview | Children
    | Implementation | Integration | PostReview | Closed
    | Other(name: string)

  datatype PhaseDefinition =
    PhaseDefinition(kind: Kind, role: Option<string>, outcomes: map<string, string>)

  datatype Definition =
    Definition(version: int, initial: string, phases: map<string, PhaseDefinition>)
  {
    /** The kind of a phase; a name the definition lacks has no lifecycle kind. */
    function KindOf(phase: string): Kind {
      if phase in phases then phases[phase].kind else Other("")
    }

    /** Where a phase leads on an outcome, if it accepts that outcome. */
    function Target(phase: string, outcome: string): Option<string> {
      if phase in phases && outcome in phases[phase].outcomes then Some(phases[phase].outcomes[outcome]) else None
    }

    function PhasesOfKind(kind: Kind): set<string> {
      set p | p in phases && phases[p].kind == kind
    }
  }

  const LIFECYCLE: set<Kind> :=
    {Contract, Tests, Plan, PreReview, Children, Implementation, Integration, PostReview, Closed}

  /** What WorkflowDefinition.from_dict checks. */
  ghost predicate Loadable(d: Definition) {
    && d.version >= 1
    && d.initial in d.phases
    && (forall p, o :: d.Target(p, o).Some? ==> d.Target(p, o).value in d.phases)
    && (forall k {:trigger d.PhasesOfKind(k)} | k in LIFECYCLE :: d.PhasesOfKind(k) != {})
  }

  /** Every phase of kind `from` answers `outcome` by entering kind `to`. */
  ghost predicate Leads(d: Definition, from: Kind, outcome: string, to: Kind) {
    forall p {:trigger d.Target(p, outcome)} | d.KindOf(p) == from ::
      d.Target(p, outcome).Some? && d.KindOf(d.Target(p, outcome).value) == to
  }

  /** The moves of the standard lifecycle. */
  predicate Link(from: Kind, outcome: string, to: Kind) {
    match from
    case Contract => outcome == "accepted" && to == Tests
    case Tests => outcome == "frozen" && to == Plan
    case Plan => outcome == "planned" && to == PreReview
    case PreReview => (outcome == "leaf" && to == Implementation) || (outcome == "composite" && to == Children)
    case Children => outcome == "integrated" && to == Integration
    case Implementation => outcome == "verified" && to == PostReview
    case Integration => outcome == "verified" && to == PostReview
    case PostReview => outcome == "accepted" && to == Closed
    case _ => false
  }

  /** The shape of the standard lifecycle: one phase per kind, joined by the
      outcomes the graph operations use. Phase names, roles and further outcomes
      are free. */
  ghost predicate WellShaped(d: Definition) {
    && Loadable(d)
    && (forall k {:trigger d.PhasesOfKind(k)} | k in LIFECYCLE :: |d.PhasesOfKind(k)| == 1)
    && d.KindOf(d.initial) == Contract
    && (forall from, outcome, to {:trigger Link(from, outcome, to)} ::
          Link(from, outcome, to) ==> Leads(d, from, outcome, to))
  }

  // ------------------------------------------------------------------- Cells

  datatype ClaimStatus = Suspected | Verified | Resolved

  datatype Claim = Claim(
    proposition: string, status: ClaimStatus, evidence: seq<string>,
    resolution: Option<string>, verification: Option<string>)

  predicate Blocking(claim: Claim) {
    claim.status == Verified
  }

  datatype References = References(
    contract: string, specification: Option<string>,
    cellContract: Option<string>, composite: Option<string>)

  datatype Cell = Cell(
    cellId: Id, parent: Option<Id>, refs: References, obligations: seq<Id>, scope: seq<string>,
    depth: nat, phase: string, owner: Option<string>, revision: nat,
    visibleTests: Option<string>, holdoutTests: Option<string>, obligationMap: map<Id, seq<string>>,
    testsExecutable: bool, planDigest: Option<string>, responsibilities: map<Id, string>,
    preReviewAccepted: bool, leaf: Option<bool>, seams: seq<string>, children: seq<Id>,
    verificationPassed: bool, integrationPassed: bool, postReviewAccepted: bool,
    claims: map<Id, Claim>, approvals: seq<string>)

  function NewCell(cellId: Id, parent: Option<Id>, refs: References, obligations: seq<Id>,
                   scope: seq<string>, depth: nat, phase: string, owner: Option<string>): Cell
  {
    Cell(cellId, parent, refs, obligations, scope, depth, phase, owner, 1, None, None, map[], false, None,
         map[], false, None, [], [], false, false, false, map[], [])
  }

  datatype ChildSpec = ChildSpec(
    cellId: Id, obligations: seq<Id>, owner: string, scope: seq<string>, contract: Option<string>)

  datatype GraphEvent = GraphEvent(eventType: string, cellId: Id, revision: nat)

  datatype Graph = Graph(runId: string, def: Definition, cells: map<Id, Cell>, events: seq<GraphEvent>)
  {
    function Kind(id: Id): Kind
      requires id in cells
    {
      def.KindOf(cells[id].phase)
    }

    predicate IsClosed(id: Id) {
      id in cells && Kind(id) == Closed
    }
  }

  function Fresh(runId: string, def: Definition): Graph {
    Graph(runId, def, map[], [])
  }

  /** The role a Cell's phase asks for. */
  function Role(g: Graph, id: Id): Option<string>
    requires id in g.cells
  {
    if g.cells[id].phase in g.def.phases then g.def.phases[g.cells[id].phase].role else None
  }

  datatype Error =
    SchemaError | TransitionError | DecompositionError | ClosureError | AuthorityError | IdempotencyError

  datatype Outcome = Outcome(graph: Graph, error: Option<Error>)

  function Done(g: Graph): Outcome { Outcome(g, None) }

  function Refuse(g: Graph, e: Error): Outcome { Outcome(g, Some(e)) }

  /** Store a Cell and append an event carrying its revision. */
  function Put(g: Graph, c: Cell, eventType: string): Graph {
    g.(cells := g.cells[c.cellId := c],
       events := g.events + [GraphEvent(eventType, c.cellId, c.revision)])
  }

  /** Enter the phase the current phase names for `outcome`. */
  function Transition(g: Graph, c: Cell, outcome: string): Outcome {
    match g.def.Target(c.phase, outcome)
    case Some(p) => Done(Put(g, c.(phase := p, revision := c.revision + 1), "cell.transitioned"))
    case None => Refuse(g, TransitionError)
  }

  /** The single phase of a kind, when there is exactly one. */
  ghost function PhaseForKind(d: Definition, kind: Kind): Option<string> {
    if exists p :: d.PhasesOfKind(kind) == {p} then
      var p :| d.PhasesOfKind(kind) == {p};
      Some(p)
    else None
  }

  // -------------------------------------------------------------- operations

  datatype TestBasis = TestBasis(
    visible: string, holdout: string, obligationMap: map<Id, seq<string>>, executable: bool)

  datatype Op =
    | CreateRoot(id: Id, refs: References, obligations: seq<Id>, scope: seq<string>)
    | AcceptContract(id: Id)
    | FreezeTests(id: Id, basis: TestBasis)
    | ReviseTests(id: Id, basis: TestBasis)
    | RecordPlan(id: Id, planDigest: string, responsibilities: map<Id, string>)
    | RecordPreReview(id: Id, accepted: bool, leaf: bool, seams: seq<string>)
    | Decompose(id: Id, children: seq<ChildSpec>)
    | RecordVerification(id: Id, passed: bool, evidence: seq<string>)
    | BeginIntegration(id: Id)
    | RecordIntegration(id: Id, passed: bool, evidence: seq<string>)
    | RecordPostReview(id: Id, accepted: bool, evidence: seq<string>)
    | AddClaim(id: Id, claimId: Id, claim: NewClaim)
    | ResolveClaim(id: Id, claimId: Id, resolution: string, verification: string)
    | AddApproval(id: Id, reviewer: string)
    | Close(id: Id)
    | Reopen(id: Id)
    | RouteVerifiedIssue(affected: seq<Id>, claimId: Id, proposition: string, evidence: seq<string>)

  /** status is None when the caller passes a status the graph does not know. */
  datatype NewClaim = NewClaim(proposition: string, status: Option<ClaimStatus>, evidence: seq<string>)

  predicate GoodBasis(c: Cell, b: TestBasis) {
    && b.visible != "" && b.holdout != ""
    && b.obligationMap.Keys == SetOf(c.obligations)
    && forall o | o in b.obligationMap :: b.obligationMap[o] != [] && "" !in b.obligationMap[o]
  }

  function CreateRootOp(g: Graph, id: Id, refs: References, obligations: seq<Id>, scope: seq<string>): Outcome {
    if g.cells != map[] then Refuse(g, TransitionError)
    else if obligations == [] || !Distinct(obligations) then Refuse(g, SchemaError)
    else
      var root := NewCell(id, None, refs, obligations, if scope == [] then [id] else scope, 0, g.def.initial, None);
      Done(Put(g, root, "cell.created"))
  }

  function AcceptContractOp(g: Graph, c: Cell): Outcome {
    if g.def.KindOf(c.phase) != Contract then Refuse(g, TransitionError)
    else Transition(g, c, "accepted")
  }

  function Frozen(c: Cell, b: TestBasis): Cell {
    c.(visibleTests := Some(b.visible), holdoutTests := Some(b.holdout),
       obligationMap := b.obligationMap, testsExecutable := b.executable)
  }

  function FreezeTestsOp(g: Graph, c: Cell, b: TestBasis): Outcome {
    if g.def.KindOf(c.phase) != Tests || !GoodBasis(c, b) then Refuse(g, TransitionError)
    else
      var c' := Frozen(c, b);
      Transition(Put(g, c', "tests.frozen"), c', "frozen")
  }

  /** Everything planned, reviewed or verified on the old tests is forgotten. */
  function Unplanned(c: Cell): Cell {
    c.(planDigest := None, responsibilities := map[], preReviewAccepted := false, leaf := None, seams := [],
       children := [], verificationPassed := false, integrationPassed := false, postReviewAccepted := false)
  }

  ghost function ReviseTestsOp(g: Graph, c: Cell, b: TestBasis): Outcome {
    if !Truthy(c.visibleTests) || !GoodBasis(c, b) then Refuse(g, TransitionError)
    else if c.visibleTests == Some(b.visible) && c.holdoutTests == Some(b.holdout)
            && c.obligationMap == b.obligationMap then Refuse(g, TransitionError)
    else
      var c' := Unplanned(Frozen(c, b));
      match PhaseForKind(g.def, Plan)
      case None => Refuse(g.(cells := g.cells[c.cellId := c']), SchemaError)
      case Some(p) => Done(Put(g, c'.(phase := p, revision := c.revision + 1), "tests.revised"))
  }

  predicate GoodPlan(c: Cell, responsibilities: map<Id, string>) {
    && Truthy(c.visibleTests) && c.obligationMap.Keys == SetOf(c.obligations)
    && responsibilities.Keys == SetOf(c.obligations)
    && forall o | o in responsibilities :: responsibilities[o] != ""
  }

  function RecordPlanOp(g: Graph, c: Cell, planDigest: string, responsibilities: map<Id, string>): Outcome {
    if g.def.KindOf(c.phase) != Plan || !GoodPlan(c, responsibilities) then Refuse(g, TransitionError)
    else
      var c' := c.(planDigest := Some(planDigest), responsibilities := responsibilities);
      Transition(Put(g, c', "plan.recorded"), c', "planned")
  }

  function RecordPreReviewOp(g: Graph, c: Cell, accepted: bool, leaf: bool, seams: seq<string>): Outcome {
    if g.def.KindOf(c.phase) != PreReview || !accepted || (leaf && seams != []) then Refuse(g, TransitionError)
    else
      var c' := c.(preReviewAccepted := true, leaf := Some(leaf), seams := seams);
      Transition(Put(g, c', "pre_review.recorded"), c', if leaf then "leaf" else "composite")
  }

  predicate NarrowsScope(parent: seq<string>, child: seq<string>) {
    |parent| < |child| && child[..|parent|] == parent
  }

  /** The obligations of some children taken together. */
  function Covered(children: seq<ChildSpec>): set<Id> {
    set i, o | 0 <= i < |children| && o in children[i].obligations :: o
  }

  predicate GoodChild(c: Cell, spec: ChildSpec) {
    && spec.owner != ""
    && spec.obligations != []
    && SetOf(spec.obligations) <= SetOf(c.obligations)
    && NarrowsScope(c.scope, spec.scope)
  }

  function ChildIds(children: seq<ChildSpec>): seq<Id> {
    seq(|children|, i requires 0 <= i < |children| => children[i].cellId)
  }

  /** The children have new distinct ids and split the parent's obligations. */
  predicate GoodSplit(g: Graph, c: Cell, children: seq<ChildSpec>) {
    && children != []
    && Distinct(ChildIds(children))
    && (forall i | 0 <= i < |children| :: children[i].cellId !in g.cells)
    && (forall i | 0 <= i < |children| :: GoodChild(c, children[i]))
    && (forall i, j | 0 <= i < j < |children| :: SetOf(children[i].obligations) !! SetOf(children[j].obligations))
    && Covered(children) == SetOf(c.obligations)
  }

  function Child(def: Definition, c: Cell, spec: ChildSpec): Cell {
    NewCell(spec.cellId, Some(c.cellId),
            References(if Truthy(spec.contract) then spec.contract.value else c.refs.contract,
                       c.refs.specification, spec.contract, None),
            spec.obligations, spec.scope, c.depth + 1, def.initial, Some(spec.owner))
  }

  function AddChildren(g: Graph, c: Cell, children: seq<ChildSpec>): Graph {
    if children == [] then g
    else
      var n := |children| - 1;
      Put(AddChildren(g, c, children[..n]), Child(g.def, c, children[n]), "cell.created")
  }

  function DecomposeOp(g: Graph, c: Cell, children: seq<ChildSpec>): Outcome {
    if g.def.KindOf(c.phase) != Children || !c.preReviewAccepted || c.leaf != Some(false) then
      Refuse(g, TransitionError)
    else if !GoodSplit(g, c, children) then Refuse(g, DecompositionError)
    else
      Done(Put(AddChildren(g, c, children),
               c.(children := ChildIds(children), revision := c.revision + 1), "cell.decomposed"))
  }

  datatype Missing =
    | TestsFrozen | ObligationsTested | ResponsibilitiesMapped | OwnerAssigned
    | TestsExecutable | SeamsResolved | PreReviewAccepted

  function When(condition: bool, m: Missing): seq<Missing> {
    if condition then [m] else []
  }

  predicate ObligationsUntested(c: Cell) {
    c.obligationMap.Keys != SetOf(c.obligations) || exists o :: o in c.obligationMap && c.obligationMap[o] == []
  }

  predicate Unowned(c: Cell) {
    !Truthy(c.owner) && forall o | o in c.responsibilities :: c.responsibilities[o] == ""
  }

  function LeafReadiness(c: Cell): seq<Missing> {
    When(!Truthy(c.visibleTests) || !Truthy(c.holdoutTests), TestsFrozen)
    + When(ObligationsUntested(c), ObligationsTested)
    + When(c.responsibilities.Keys != SetOf(c.obligations), ResponsibilitiesMapped)
    + When(Unowned(c), OwnerAssigned)
    + When(!c.testsExecutable, TestsExecutable)
    + When(c.seams != [] || c.leaf != Some(true), SeamsResolved)
    + When(!c.preReviewAccepted, PreReviewAccepted)
  }

  /** Nothing is missing: what a verified leaf must have. */
  ghost predicate Ready(c: Cell) {
    && Truthy(c.visibleTests) && Truthy(c.holdoutTests)
    && !ObligationsUntested(c)
    && c.responsibilities.Keys == SetOf(c.obligations)
    && !Unowned(c)
    && c.testsExecutable
    && c.seams == [] && c.leaf == Some(true)
    && c.preReviewAccepted
  }

  lemma NothingMissingIsReady(c: Cell)
    ensures LeafReadiness(c) == [] <==> Ready(c)
  {
    var missing := LeafReadiness(c);
    if !Ready(c) {
      assert missing != [];
    }
  }

  function RecordVerificationOp(g: Graph, c: Cell, passed: bool, evidence: seq<string>): Outcome {
    if g.def.KindOf(c.phase) != Implementation || LeafReadiness(c) != [] || !passed || evidence == [] then
      Refuse(g, TransitionError)
    else
      var c' := c.(verificationPassed := true);
      Transition(Put(g, c', "verification.recorded"), c', "verified")
  }

  /** Children lists name existing Cells in every reachable graph. */
  predicate ChildrenClosed(g: Graph, c: Cell) {
    forall child | child in c.children :: g.IsClosed(child)
  }

  function BeginIntegrationOp(g: Graph, c: Cell): Outcome {
    if g.def.KindOf(c.phase) != Children then Refuse(g, TransitionError)
    else if c.children == [] || !ChildrenClosed(g, c) then Refuse(g, ClosureError)
    else
      var t := Transition(g, c, "integrated");
      if t.error.Some? then t
      else if c.cellId in t.graph.cells && t.graph.Kind(c.cellId) == Integration then t
      else Refuse(t.graph, TransitionError)
  }

  /** From the children phase this first begins integration, and that much stays
      even when the integration result is then refused. */
  function RecordIntegrationOp(g: Graph, c: Cell, passed: bool, evidence: seq<string>): Outcome {
    var begun := if g.def.KindOf(c.phase) == Children then BeginIntegrationOp(g, c) else Done(g);
    if begun.error.Some? then begun
    else if c.cellId !in begun.graph.cells || begun.graph.Kind(c.cellId) != Integration then
      Refuse(begun.graph, TransitionError)
    else if !passed || evidence == [] then Refuse(begun.graph, ClosureError)
    else
      var c' := begun.graph.cells[c.cellId].(integrationPassed := true);
      Transition(Put(begun.graph, c', "verification.recorded"), c', "verified")
  }

  function RecordPostReviewOp(g: Graph, c: Cell, accepted: bool, evidence: seq<string>): Outcome {
    if g.def.KindOf(c.phase) != PostReview || !accepted || evidence == [] then Refuse(g, TransitionError)
    else Done(Put(g, c.(postReviewAccepted := true), "post_review.recorded"))
  }

  function AddClaimOp(g: Graph, c: Cell, claimId: Id, claim: NewClaim): Outcome {
    if claimId in c.claims then Refuse(g, SchemaError)
    else if claim.status != Some(Suspected) && claim.status != Some(Verified) then Refuse(g, SchemaError)
    else if claim.status == Some(Verified) && claim.evidence == [] then Refuse(g, SchemaError)
    else
      var recorded := Claim(claim.proposition, claim.status.value, claim.evidence, None, None);
      Done(Put(g, c.(claims := c.claims[claimId := recorded], revision := c.revision + 1), "claim.recorded"))
  }

  function ResolveClaimOp(g: Graph, c: Cell, claimId: Id, resolution: string, verification: string): Outcome {
    if claimId !in c.claims then Refuse(g, SchemaError)
    else if c.claims[claimId].status != Verified || resolution == "" || verification == "" then
      Refuse(g, ClosureError)
    else
      var resolved := c.claims[claimId].(
        status := Resolved, resolution := Some(resolution), verification := Some(verification));
      Done(Put(g, c.(claims := c.claims[claimId := resolved], revision := c.revision + 1), "claim.resolved"))
  }

  function AddApprovalOp(g: Graph, c: Cell, reviewer: string): Outcome {
    Done(Put(g, c.(approvals := c.approvals + [reviewer]), "approval.recorded"))
  }

  predicate HasBlockingClaim(c: Cell) {
    exists k :: k in c.claims && Blocking(c.claims[k])
  }

  function CloseOp(g: Graph, c: Cell): Outcome {
    if g.def.KindOf(c.phase) != PostReview || HasBlockingClaim(c) || !c.postReviewAccepted then
      Refuse(g, ClosureError)
    else if c.children != [] && (!ChildrenClosed(g, c) || !c.integrationPassed) then Refuse(g, ClosureError)
    else if c.children == [] && !c.verificationPassed then Refuse(g, ClosureError)
    else
      var t := Transition(g, c, "accepted");
      if t.error.Some? || c.cellId !in t.graph.cells then t
      else Done(Put(t.graph, t.graph.cells[c.cellId], "cell.closed"))
  }

  ghost function ReopenOp(g: Graph, c: Cell): Outcome {
    if g.def.KindOf(c.phase) != Closed then Refuse(g, TransitionError)
    else
      match PhaseForKind(g.def, PostReview)
      case None => Refuse(g, SchemaError)
      case Some(p) => Done(Put(g, c.(phase := p, revision := c.revision + 1), "cell.reopened"))
  }

  /** From a Cell up to the root. A parent that is not shallower ends the walk;
      in every reachable graph there is none. */
  function Ancestors(g: Graph, id: Id): seq<Id>
    requires id in g.cells
    decreases g.cells[id].depth
  {
    var c := g.cells[id];
    if c.parent.Some? && c.parent.value in g.cells && g.cells[c.parent.value].depth < c.depth
    then [id] + Ancestors(g, c.parent.value)
    else [id]
  }

  ghost predicate CommonAncestor(g: Graph, ids: seq<Id>, a: Id)
    requires forall id | id in ids :: id in g.cells
  {
    forall id | id in ids :: a in Ancestors(g, id)
  }

  ghost predicate DeepestCommon(g: Graph, ids: seq<Id>, a: Id)
    requires forall id | id in ids :: id in g.cells
  {
    && a in g.cells
    && CommonAncestor(g, ids, a)
    && forall b | b in g.cells && CommonAncestor(g, ids, b) :: g.cells[b].depth <= g.cells[a].depth
  }

  ghost function LowestCommonAncestor(g: Graph, ids: seq<Id>): Option<Id> {
    if ids == [] || exists id :: id in ids && id !in g.cells then None
    else if a :| DeepestCommon(g, ids, a) then Some(a)
    else None
  }

  function Routed(c: Cell, claimId: Id): Cell {
    c.(preReviewAccepted := false, leaf := None, seams := [claimId], verificationPassed := false,
       integrationPassed := false, postReviewAccepted := false)
  }

  ghost function RouteTo(g: Graph, target: Cell, claimId: Id, proposition: string, evidence: seq<string>): Outcome {
    var added := AddClaimOp(g, target, claimId, NewClaim(proposition, Some(Verified), evidence));
    if added.error.Some? || target.cellId !in added.graph.cells then added
    else
      var c := added.graph.cells[target.cellId];
      match PhaseForKind(g.def, PreReview)
      case None => Refuse(added.graph, SchemaError)
      case Some(p) =>
        Done(Put(added.graph, Routed(c, claimId).(phase := p, revision := c.revision + 1),
                 "cell.reopened_for_issue"))
  }

  ghost function RouteOp(g: Graph, affected: seq<Id>, claimId: Id, proposition: string, evidence: seq<string>): Outcome
  {
    match LowestCommonAncestor(g, affected)
    case None => Refuse(g, SchemaError)
    case Some(target) =>
      if target in g.cells then RouteTo(g, g.cells[target], claimId, proposition, evidence)
      else Refuse(g, SchemaError)
  }

  // ---------------------------------------------------------------- dispatch

  /** One call on an existing Cell. */
  ghost function ApplyTo(g: Graph, c: Cell, op: Op): Outcome {
    match op
    case CreateRoot(id, refs, obligations, scope) => CreateRootOp(g, id, refs, obligations, scope)
    case AcceptContract(_) => AcceptContractOp(g, c)
    case FreezeTests(_, b) => FreezeTestsOp(g, c, b)
    case ReviseTests(_, b) => ReviseTestsOp(g, c, b)
    case RecordPlan(_, d, r) => RecordPlanOp(g, c, d, r)
    case RecordPreReview(_, accepted, leaf, seams) => RecordPreReviewOp(g, c, accepted, leaf, seams)
    case Decompose(_, children) => DecomposeOp(g, c, children)
    case RecordVerification(_, passed, refs) => RecordVerificationOp(g, c, passed, refs)
    case BeginIntegration(_) => BeginIntegrationOp(g, c)
    case RecordIntegration(_, passed, refs) => RecordIntegrationOp(g, c, passed, refs)
    case RecordPostReview(_, accepted, refs) => RecordPostReviewOp(g, c, accepted, refs)
    case AddClaim(_, claimId, claim) => AddClaimOp(g, c, claimId, claim)
    case ResolveClaim(_, claimId, r, v) => ResolveClaimOp(g, c, claimId, r, v)
    case AddApproval(_, reviewer) => AddApprovalOp(g, c, reviewer)
    case Close(_) => CloseOp(g, c)
    case Reopen(_) => ReopenOp(g, c)
    case RouteVerifiedIssue(affected, claimId, proposition, evidence) =>
      RouteOp(g, affected, claimId, proposition, evidence)
  }

  /** One call on the graph. Naming an unknown Cell is a SchemaError. */
  ghost function Apply(g: Graph, op: Op): Outcome {
    if op.CreateRoot? then CreateRootOp(g, op.id, op.refs, op.obligations, op.scope)
    else if op.RouteVerifiedIssue? then RouteOp(g, op.affected, op.claimId, op.proposition, op.evidence)
    else if op.id !in g.cells then Refuse(g, SchemaError)
    else ApplyTo(g, g.cells[op.id], op)
  }

  /** The graph after a run of calls, refused ones included. */
  ghost function Run(g: Graph, ops: seq<Op>): Graph {
    if ops == [] then g
    else Apply(Run(g, ops[..|ops| - 1]), ops[|ops| - 1]).graph
  }

  /** A call that can take a Cell back: excluded from forward-only runs. */
  predicate Backward(op: Op) {
    op.Reopen? || op.ReviseTests? || op.RouteVerifiedIssue?
  }

  predicate Forward(ops: seq<Op>) {
    forall i | 0 <= i < |ops| :: !Backward(ops[i])
  }
}
