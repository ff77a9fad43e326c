/** Calls that take a Cell through its lifecycle in any well-shaped definition: the
    runs behind the witnesses. */
module Walkthrough {
  import opened Basics
  import opened Workflow
  import opened GraphInvariant
  import Staleness

  ghost predicate Standing(g: Graph, id: Id, kind: Kind) {
    Inv(g) && id in g.cells && g.Kind(id) == kind
  }

  /** One Cell changed, in phase and revision to `now`. */
  ghost predicate Changes(g: Graph, g': Graph, id: Id, now: Cell) {
    && id in g.cells && id in g'.cells && g'.def == g.def && g'.runId == g.runId
    && g'.cells == g.cells[id := g'.cells[id]]
    && g'.cells[id] == now.(phase := g'.cells[id].phase, revision := g'.cells[id].revision)
  }

  function BasisFor(c: Cell): TestBasis {
    TestBasis("visible", "holdout", map o | o in c.obligations :: ["test"], true)
  }

  function Owners(c: Cell): map<Id, string> {
    map o | o in c.obligations :: "owner"
  }

  /** A Cell as planned on tests of its own. */
  function Planned(c: Cell): Cell {
    Frozen(c, BasisFor(c)).(planDigest := Some("plan"), responsibilities := Owners(c))
  }

  function Early(c: Cell): seq<Op> {
    [AcceptContract(c.cellId), FreezeTests(c.cellId, BasisFor(c)), RecordPlan(c.cellId, "plan", Owners(c))]
  }

  lemma AcceptCall(g: Graph, id: Id)
    requires Standing(g, id, Contract)
    ensures var o := Apply(g, AcceptContract(id));
            o.error.None? && Changes(g, o.graph, id, g.cells[id]) && Standing(o.graph, id, Tests)
  {
    assert ConsistentAt(g, id);
    StepKeepsInv(g, AcceptContract(id));
    TransitionEnters(g, g.cells[id], "accepted", Tests);
  }

  lemma FreezeCall(g: Graph, id: Id)
    requires Standing(g, id, Tests)
    ensures var b := BasisFor(g.cells[id]);
            var o := Apply(g, FreezeTests(id, b));
            o.error.None? && Changes(g, o.graph, id, Frozen(g.cells[id], b)) && Standing(o.graph, id, Plan)
  {
    assert ConsistentAt(g, id);
    var c := g.cells[id];
    var b := BasisFor(c);
    StepKeepsInv(g, FreezeTests(id, b));
    assert b.obligationMap.Keys == SetOf(c.obligations);
    TransitionEnters(Put(g, Frozen(c, b), "tests.frozen"), Frozen(c, b), "frozen", Plan);
  }

  lemma PlanCall(g: Graph, id: Id)
    requires Standing(g, id, Plan) && Truthy(g.cells[id].visibleTests)
    requires g.cells[id].obligationMap.Keys == SetOf(g.cells[id].obligations)
    ensures var r := Owners(g.cells[id]);
            var o := Apply(g, RecordPlan(id, "plan", r));
            && o.error.None? && Standing(o.graph, id, PreReview)
            && Changes(g, o.graph, id, g.cells[id].(planDigest := Some("plan"), responsibilities := r))
  {
    assert ConsistentAt(g, id);
    var c, r := g.cells[id], Owners(g.cells[id]);
    StepKeepsInv(g, RecordPlan(id, "plan", r));
    assert r.Keys == SetOf(c.obligations);
    var c' := c.(planDigest := Some("plan"), responsibilities := r);
    TransitionEnters(Put(g, c', "plan.recorded"), c', "planned", PreReview);
  }

  lemma LeafReviewCall(g: Graph, id: Id)
    requires Standing(g, id, PreReview)
    ensures var o := Apply(g, RecordPreReview(id, true, true, []));
            && o.error.None? && Standing(o.graph, id, Implementation)
            && Changes(g, o.graph, id, g.cells[id].(preReviewAccepted := true, leaf := Some(true), seams := []))
  {
    assert ConsistentAt(g, id);
    var c' := g.cells[id].(preReviewAccepted := true, leaf := Some(true), seams := []);
    StepKeepsInv(g, RecordPreReview(id, true, true, []));
    TransitionEnters(Put(g, c', "pre_review.recorded"), c', "leaf", Implementation);
  }

  lemma CompositeReviewCall(g: Graph, id: Id)
    requires Standing(g, id, PreReview)
    ensures var o := Apply(g, RecordPreReview(id, true, false, []));
            && o.error.None? && Standing(o.graph, id, Children)
            && Changes(g, o.graph, id, g.cells[id].(preReviewAccepted := true, leaf := Some(false), seams := []))
  {
    assert ConsistentAt(g, id);
    var c' := g.cells[id].(preReviewAccepted := true, leaf := Some(false), seams := []);
    StepKeepsInv(g, RecordPreReview(id, true, false, []));
    TransitionEnters(Put(g, c', "pre_review.recorded"), c', "composite", Children);
  }

  lemma VerificationCall(g: Graph, id: Id, evidence: seq<string>)
    requires Standing(g, id, Implementation) && LeafReadiness(g.cells[id]) == [] && evidence != []
    ensures var o := Apply(g, RecordVerification(id, true, evidence));
            && o.error.None? && Standing(o.graph, id, PostReview)
            && Changes(g, o.graph, id, g.cells[id].(verificationPassed := true))
  {
    StepKeepsInv(g, RecordVerification(id, true, evidence));
    VerificationEnters(g, id, evidence);
  }

  lemma VerificationEnters(g: Graph, id: Id, evidence: seq<string>)
    requires Standing(g, id, Implementation) && LeafReadiness(g.cells[id]) == [] && evidence != []
    ensures var o := Apply(g, RecordVerification(id, true, evidence));
            && o.error.None? && id in o.graph.cells && o.graph.def == g.def && o.graph.Kind(id) == PostReview
            && Changes(g, o.graph, id, g.cells[id].(verificationPassed := true))
  {
    assert ConsistentAt(g, id);
    var c' := g.cells[id].(verificationPassed := true);
    TransitionEnters(Put(g, c', "verification.recorded"), c', "verified", PostReview);
  }

  lemma PostReviewCall(g: Graph, id: Id, evidence: seq<string>)
    requires Standing(g, id, PostReview) && evidence != []
    ensures var o := Apply(g, RecordPostReview(id, true, evidence));
            && o.error.None? && Standing(o.graph, id, PostReview)
            && Changes(g, o.graph, id, g.cells[id].(postReviewAccepted := true))
  {
    assert ConsistentAt(g, id);
    StepKeepsInv(g, RecordPostReview(id, true, evidence));
  }

  lemma CloseCall(g: Graph, id: Id)
    requires Standing(g, id, PostReview) && g.cells[id].claims == map[] && g.cells[id].postReviewAccepted
    requires g.cells[id].children == [] && g.cells[id].verificationPassed
    ensures var o := Apply(g, Close(id));
            && o.error.None? && Standing(o.graph, id, Closed) && Changes(g, o.graph, id, g.cells[id])
  {
    StepKeepsInv(g, Close(id));
    ClosingEnters(g, id);
  }

  lemma ClosingEnters(g: Graph, id: Id)
    requires Standing(g, id, PostReview) && g.cells[id].claims == map[] && g.cells[id].postReviewAccepted
    requires g.cells[id].children == [] && g.cells[id].verificationPassed
    ensures var o := Apply(g, Close(id));
            && o.error.None? && id in o.graph.cells && o.graph.def == g.def && o.graph.Kind(id) == Closed
            && Changes(g, o.graph, id, g.cells[id])
  {
    assert ConsistentAt(g, id);
    TransitionEnters(g, g.cells[id], "accepted", Closed);
  }

  lemma IntegrationCall(g: Graph, id: Id)
    requires Standing(g, id, Children) && g.cells[id].children != [] && ChildrenClosed(g, g.cells[id])
    ensures var o := Apply(g, Op.BeginIntegration(id));
            && o.error.None? && Standing(o.graph, id, Integration) && Changes(g, o.graph, id, g.cells[id])
  {
    assert ConsistentAt(g, id);
    StepKeepsInv(g, Op.BeginIntegration(id));
    TransitionEnters(g, g.cells[id], "integrated", Integration);
  }

  lemma IntegratedCall(g: Graph, id: Id, evidence: seq<string>)
    requires Standing(g, id, Integration) && evidence != []
    ensures var o := Apply(g, Op.RecordIntegration(id, true, evidence));
            && o.error.None? && Standing(o.graph, id, PostReview)
            && Changes(g, o.graph, id, g.cells[id].(integrationPassed := true))
  {
    StepKeepsInv(g, Op.RecordIntegration(id, true, evidence));
    IntegrationEnters(g, id, evidence);
  }

  lemma IntegrationEnters(g: Graph, id: Id, evidence: seq<string>)
    requires Standing(g, id, Integration) && evidence != []
    ensures var o := Apply(g, Op.RecordIntegration(id, true, evidence));
            && o.error.None? && id in o.graph.cells && o.graph.def == g.def && o.graph.Kind(id) == PostReview
            && Changes(g, o.graph, id, g.cells[id].(integrationPassed := true))
  {
    assert ConsistentAt(g, id);
    var c' := g.cells[id].(integrationPassed := true);
    TransitionEnters(Put(g, c', "verification.recorded"), c', "verified", PostReview);
  }

  lemma CompositeCloseCall(g: Graph, id: Id)
    requires Standing(g, id, PostReview) && g.cells[id].claims == map[] && g.cells[id].postReviewAccepted
    requires g.cells[id].children != [] && ChildrenClosed(g, g.cells[id]) && g.cells[id].integrationPassed
    ensures Apply(g, Close(id)).error.None?
  {
    assert ConsistentAt(g, id);
    TransitionEnters(g, g.cells[id], "accepted", Closed);
  }

  // ---------- several calls ----------

  lemma OneMore(g: Graph, ops: seq<Op>, op: Op)
    ensures Run(g, ops + [op]) == Apply(Run(g, ops), op).graph
  {
    assert (ops + [op])[..|ops|] == ops;
  }

  lemma FirstTwoCalls(g: Graph, id: Id)
    requires Standing(g, id, Contract)
    ensures var c := g.cells[id];
            var g' := Run(g, Early(c)[..2]);
            Changes(g, g', id, Frozen(c, BasisFor(c))) && Standing(g', id, Plan)
  {
    var c := g.cells[id];
    assert ConsistentAt(g, id);
    assert Early(c)[..2] == [] + [Early(c)[0]] + [Early(c)[1]];
    assert Run(g, []) == g;
    OneMore(g, [], Early(c)[0]);
    AcceptCall(g, id);
    OneMore(g, [] + [Early(c)[0]], Early(c)[1]);
    FreezeCall(Apply(g, Early(c)[0]).graph, id);
  }

  /** From its contract to its pre-review. */
  lemma EarlyCalls(g: Graph, id: Id)
    requires Standing(g, id, Contract)
    ensures var c := g.cells[id];
            var g' := Run(g, Early(c));
            Changes(g, g', id, Planned(c)) && Standing(g', id, PreReview)
  {
    var c := g.cells[id];
    assert ConsistentAt(g, id);
    FirstTwoCalls(g, id);
    assert Early(c) == Early(c)[..2] + [Early(c)[2]];
    OneMore(g, Early(c)[..2], Early(c)[2]);
    PlanCall(Run(g, Early(c)[..2]), id);
  }

  function Prepared(c: Cell): Cell {
    Planned(c).(preReviewAccepted := true, leaf := Some(true), seams := [])
  }

  function LeafCalls(c: Cell): seq<Op> {
    Early(c) + [RecordPreReview(c.cellId, true, true, [])]
  }

  lemma PreparedIsReady(c: Cell, now: Cell)
    requires c.obligations != [] && now == Prepared(c).(phase := now.phase, revision := now.revision)
    ensures LeafReadiness(now) == []
  {
    assert now.obligationMap.Keys == SetOf(now.obligations) && now.responsibilities.Keys == SetOf(now.obligations);
    assert now.obligations[0] in now.responsibilities && now.responsibilities[now.obligations[0]] == "owner";
    assert !ObligationsUntested(now) && !Unowned(now);
    NothingMissingIsReady(now);
  }

  /** From its contract to an implementation that lacks nothing but its verification. */
  lemma BecomesLeaf(g: Graph, id: Id)
    requires Standing(g, id, Contract)
    ensures var c := g.cells[id];
            var g' := Run(g, LeafCalls(c));
            && Changes(g, g', id, Prepared(c)) && Standing(g', id, Implementation)
            && LeafReadiness(g'.cells[id]) == []
  {
    var c := g.cells[id];
    assert ConsistentAt(g, id) && Placed(g, id);
    EarlyCalls(g, id);
    OneMore(g, Early(c), RecordPreReview(id, true, true, []));
    ReviewedLeaf(g, Run(g, Early(c)), id);
  }

  lemma ReviewedLeaf(g: Graph, g3: Graph, id: Id)
    requires id in g.cells && Changes(g, g3, id, Planned(g.cells[id])) && Standing(g3, id, PreReview)
    requires g.cells[id].obligations != []
    ensures var g' := Apply(g3, RecordPreReview(id, true, true, [])).graph;
            && Changes(g, g', id, Prepared(g.cells[id])) && Standing(g', id, Implementation)
            && LeafReadiness(g'.cells[id]) == []
  {
    LeafReviewCall(g3, id);
    PreparedIsReady(g.cells[id], Apply(g3, RecordPreReview(id, true, true, [])).graph.cells[id]);
  }

  function DoneCalls(c: Cell): seq<Op> {
    LeafCalls(c) + [RecordVerification(c.cellId, true, ["evidence"])] + [RecordPostReview(c.cellId, true, ["evidence"])]
    + [Close(c.cellId)]
  }

  /** The graph differs from g in one Cell, and all it can lack is its closing. */
  ghost predicate Finished(g: Graph, g': Graph, id: Id, kind: Kind) {
    && Standing(g', id, kind) && g'.def == g.def && id in g.cells && g'.cells == g.cells[id := g'.cells[id]]
    && g'.cells[id].children == [] && g'.cells[id].claims == map[] && g'.cells[id].verificationPassed
  }

  lemma Finishes(g: Graph, g4: Graph, id: Id)
    requires id in g.cells && Changes(g, g4, id, Prepared(g.cells[id])) && Standing(g4, id, Implementation)
    requires LeafReadiness(g4.cells[id]) == [] && g.cells[id].children == [] && g.cells[id].claims == map[]
    ensures Finished(g, Apply(g4, RecordVerification(id, true, ["evidence"])).graph, id, PostReview)
  {
    VerificationCall(g4, id, ["evidence"]);
  }

  lemma FinishedCloses(g: Graph, g5: Graph, id: Id)
    requires Finished(g, g5, id, PostReview)
    ensures var g6 := Apply(g5, RecordPostReview(id, true, ["evidence"])).graph;
            Finished(g, Apply(g6, Close(id)).graph, id, Closed)
  {
    PostReviewCall(g5, id, ["evidence"]);
    CloseCall(Apply(g5, RecordPostReview(id, true, ["evidence"])).graph, id);
  }

  /** From its contract to closed. */
  lemma LeafCloses(g: Graph, id: Id)
    requires Standing(g, id, Contract) && g.cells[id].children == [] && g.cells[id].claims == map[]
    ensures Finished(g, Run(g, DoneCalls(g.cells[id])), id, Closed)
  {
    assert ConsistentAt(g, id);
    BecomesLeaf(g, id);
    var ops := LeafCalls(g.cells[id]);
    Finishes(g, Run(g, ops), id);
    var verify, review := RecordVerification(id, true, ["evidence"]), RecordPostReview(id, true, ["evidence"]);
    OneMore(g, ops, verify);
    FinishedCloses(g, Run(g, ops + [verify]), id);
    OneMore(g, ops + [verify], review);
    OneMore(g, ops + [verify] + [review], Close(id));
  }

  // ---------- a decomposed root ----------

  const REFS := References("contract", None, None, None)

  function RootCell(def: Definition, obligations: seq<Id>): Cell {
    NewCell("root", None, REFS, obligations, ["root"], 0, def.initial, None)
  }

  function NewRoot(runId: string, def: Definition, obligations: seq<Id>): Graph {
    Put(Fresh(runId, def), RootCell(def, obligations), "cell.created")
  }

  function RootCalls(def: Definition, obligations: seq<Id>): seq<Op> {
    [CreateRoot("root", REFS, obligations, ["root"])] + Early(RootCell(def, obligations))
  }

  function SplitCalls(def: Definition, specs: seq<ChildSpec>, obligations: seq<Id>): seq<Op> {
    RootCalls(def, obligations) + [RecordPreReview("root", true, false, [])] + [Decompose("root", specs)]
  }

  /** The root split as its specs say, every child at its contract. */
  ghost predicate SplitRoot(g: Graph, specs: seq<ChildSpec>) {
    && Standing(g, "root", Children) && g.cells["root"].children == ChildIds(specs)
    && g.cells["root"].leaf == Some(false)
    && forall i {:trigger specs[i]} | 0 <= i < |specs| ::
         && Standing(g, specs[i].cellId, Contract) && specs[i].cellId != "root"
         && g.cells[specs[i].cellId].children == [] && g.cells[specs[i].cellId].claims == map[]
  }

  lemma RootPlanned(runId: string, def: Definition, obligations: seq<Id>)
    requires WellShaped(def) && obligations != [] && Distinct(obligations)
    ensures var g, c := Run(Fresh(runId, def), RootCalls(def, obligations)), RootCell(def, obligations);
            && Standing(g, "root", PreReview) && g.cells.Keys == {"root"} && g.def == def
            && g.cells["root"] == Planned(c).(phase := g.cells["root"].phase, revision := g.cells["root"].revision)
  {
    var g0, create := Fresh(runId, def), CreateRoot("root", REFS, obligations, ["root"]);
    var g1 := Run(g0, [create]);
    assert [create] == [] + [create];
    OneMore(g0, [], create);
    StepKeepsInv(g0, create);
    assert g1.cells == map["root" := RootCell(def, obligations)];
    EarlyCalls(g1, "root");
    Staleness.RunInTwo(g0, [create], Early(RootCell(def, obligations)));
  }

  lemma RootReviewed(runId: string, def: Definition, specs: seq<ChildSpec>, obligations: seq<Id>)
    requires WellShaped(def) && obligations != [] && Distinct(obligations)
    ensures var ops := SplitCalls(def, specs, obligations);
            var g := Run(Fresh(runId, def), ops[..|ops| - 1]);
            && Standing(g, "root", Children) && g.cells.Keys == {"root"} && g.def == def
            && g.cells["root"] == Planned(RootCell(def, obligations)).(
                 preReviewAccepted := true, leaf := Some(false), seams := [],
                 phase := g.cells["root"].phase, revision := g.cells["root"].revision)
  {
    var calls, review := RootCalls(def, obligations), RecordPreReview("root", true, false, []);
    RootPlanned(runId, def, obligations);
    OneMore(Fresh(runId, def), calls, review);
    CompositeReviewCall(Run(Fresh(runId, def), calls), "root");
    var ops := SplitCalls(def, specs, obligations);
    assert ops[..|ops| - 1] == calls + [review];
  }

  lemma ChildStands(g: Graph, g': Graph, c: Cell, specs: seq<ChildSpec>, i: nat)
    requires Decomposed(g, g', c, specs) && Inv(g') && c.cellId in g.cells && i < |specs|
    ensures Standing(g', specs[i].cellId, Contract) && specs[i].cellId != c.cellId
    ensures g'.cells[specs[i].cellId].children == [] && g'.cells[specs[i].cellId].claims == map[]
  {
    assert ChildIds(specs)[i] == specs[i].cellId;
  }

  lemma SplitStands(g: Graph, specs: seq<ChildSpec>)
    requires Standing(g, "root", Children) && GoodSplit(g, g.cells["root"], specs)
    requires g.cells["root"].leaf == Some(false) && g.cells["root"].preReviewAccepted
    ensures SplitRoot(Apply(g, Decompose("root", specs)).graph, specs)
  {
    var c, g' := g.cells["root"], Apply(g, Decompose("root", specs)).graph;
    assert ConsistentAt(g, "root");
    StepKeepsInv(g, Decompose("root", specs));
    DecomposeEffect(g, c, specs);
    forall i {:trigger specs[i]} | 0 <= i < |specs|
      ensures Standing(g', specs[i].cellId, Contract) && specs[i].cellId != "root"
      ensures g'.cells[specs[i].cellId].children == [] && g'.cells[specs[i].cellId].claims == map[]
    {
      ChildStands(g, g', c, specs, i);
    }
  }

  lemma RootSplits(runId: string, def: Definition, specs: seq<ChildSpec>, obligations: seq<Id>)
    requires WellShaped(def) && obligations != [] && Distinct(obligations)
    requires GoodSplit(NewRoot(runId, def, obligations), RootCell(def, obligations), specs)
    ensures SplitRoot(Run(Fresh(runId, def), SplitCalls(def, specs, obligations)), specs)
  {
    var ops := SplitCalls(def, specs, obligations);
    var g := Run(Fresh(runId, def), ops[..|ops| - 1]);
    RootReviewed(runId, def, specs, obligations);
    SameSplit(g, g.cells["root"], runId, def, specs, obligations);
    SplitStands(g, specs);
  }

  lemma SameSplit(g: Graph, c: Cell, runId: string, def: Definition, specs: seq<ChildSpec>, obligations: seq<Id>)
    requires g.cells.Keys == {"root"} && c.obligations == obligations && c.scope == ["root"]
    requires GoodSplit(NewRoot(runId, def, obligations), RootCell(def, obligations), specs)
    ensures GoodSplit(g, c, specs)
  {
    var h := NewRoot(runId, def, obligations);
    forall i | 0 <= i < |specs| ensures specs[i].cellId !in g.cells && GoodChild(c, specs[i]) {
      assert "root" in h.cells && specs[i].cellId !in h.cells;
      assert GoodChild(RootCell(def, obligations), specs[i]);
    }
  }

  const CHILD := ChildSpec("child", ["o"], "owner", ["root", "child"], None)

  lemma OneChildSplits(runId: string, def: Definition)
    ensures GoodSplit(NewRoot(runId, def, ["o"]), RootCell(def, ["o"]), [CHILD])
  {
    assert [CHILD][0].obligations == ["o"] && CHILD.scope[..1] == ["root"];
    assert "o" in [CHILD][0].obligations && Covered([CHILD]) == {"o"} == SetOf(["o"]);
    assert "root"[0] != "child"[0];
  }

  /** Every well-shaped workflow has a run after which a refused integration result
      changes the graph: a root with one closed child. */
  lemma RefusedResultMovesTheRoot(runId: string, def: Definition)
    requires WellShaped(def)
    ensures var root := Run(Fresh(runId, def), SplitCalls(def, [CHILD], ["o"]));
            && "child" in root.cells
            && var ops := SplitCalls(def, [CHILD], ["o"]) + DoneCalls(root.cells["child"]);
               var g, refused := Run(Fresh(runId, def), ops), RecordIntegration("root", false, []);
               && BeginsUnasked(g, refused) && Apply(g, refused).error.Some? && Apply(g, refused).graph != g
  {
    var split := SplitCalls(def, [CHILD], ["o"]);
    var root := Run(Fresh(runId, def), split);
    OneChildSplits(runId, def);
    RootSplits(runId, def, [CHILD], ["o"]);
    assert [CHILD][0].cellId == "child" && ChildIds([CHILD]) == ["child"];
    LeafCloses(root, "child");
    assert ConsistentAt(root, "child");
    Staleness.RunInTwo(Fresh(runId, def), split, DoneCalls(root.cells["child"]));
    var g := Run(root, DoneCalls(root.cells["child"]));
    RefusedIsRefused(g, "root");
    RefusalChangesNothing(g, RecordIntegration("root", false, []));
  }

  lemma RefusedIsRefused(g: Graph, id: Id)
    requires Inv(g)
    ensures Apply(g, RecordIntegration(id, false, [])).error.Some?
  {}
}
