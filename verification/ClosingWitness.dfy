/** A run of a decomposed root under a configured pre-review, from a new run to the
    call to close it that its graph accepts and the system refuses. */
module ClosingWitness {
  import opened Basics
  import opened Workflow
  import opened Promotion
  import opened PromotionSteps
  import opened PromotionReplay
  import opened PromotionClosing
  import opened PromotionWitness
  import opened StandardWorkflow
  import opened Walkthrough
  import GraphInvariant
  import Staleness

  /** Implementations and pre-reviews are dispatched for, post-reviews are not. */
  ghost predicate Staffed(d: Definition, roles: set<string>) {
    && Manned(d, roles)
    && forall p | p in d.phases && d.phases[p].kind == PreReview ::
         d.phases[p].role.Some? && d.phases[p].role.value in roles
  }

  lemma StandardIsStaffed()
    ensures Staffed(STANDARD, {"implementer", "decomposition_adversary"})
  {
    StandardIsWellShaped();
    forall p | p in STANDARD.phases && STANDARD.phases[p].kind in {Implementation, PreReview, PostReview}
      ensures STANDARD.phases[p].role.Some?
      ensures STANDARD.phases[p].kind == PostReview <==>
                STANDARD.phases[p].role.value !in {"implementer", "decomposition_adversary"}
    {
      KindDecides(p, STANDARD.phases[p].kind);
      assert "result_adversary"[0] != "implementer"[0] && "result_adversary"[0] != "decomposition_adversary"[0];
    }
  }

  // ---------- reviewed under the configured role ----------

  ghost predicate Reviewable(s: State, m: Memory, cell: Id, id: Id, base: Snapshot) {
    && Of(s, 0) == Up(m, Idle) && Staffed(m.graph.def, s.roles) && Standing(m.graph, cell, PreReview)
    && SafeJob(id) && id !in s.files.workspaces && id !in m.jobs && Current(s.files) == Some(base)
  }

  function Attack(cell: Id, id: Id, leaf: bool): seq<Step> {
    [Dispatch(0, id, cell, true)] + [Act(0, RecordPreReview(cell, true, leaf, []), Some(id))]
  }

  ghost function Attacked(m: Memory, cell: Id, id: Id, base: Snapshot, leaf: bool): Memory
    requires cell in m.graph.cells && Role(m.graph, cell).Some?
  {
    Acted(Dispatched(m, id, cell, base), RecordPreReview(cell, true, leaf, []))
  }

  lemma ReviewDispatched(s: State, m: Memory, cell: Id, id: Id, base: Snapshot)
    requires Reviewable(s, m, cell, id, base)
    ensures Role(m.graph, cell).Some?
    ensures Next(s, Dispatch(0, id, cell, true)) ==
            Become(s, 0, Dispatched(m, id, cell, base), Idle).(
              files := s.files.(workspaces := s.files.workspaces[id := base]))
  {
    assert GraphInvariant.ConsistentAt(m.graph, cell);
  }

  lemma ReviewAllowed(m: Memory, roles: set<string>, cell: Id, id: Id, base: Snapshot, leaf: bool)
    requires Staffed(m.graph.def, roles) && Standing(m.graph, cell, PreReview) && Role(m.graph, cell).Some?
    ensures Allowed(Dispatched(m, id, cell, base), roles, RecordPreReview(cell, true, leaf, []), Some(id))
  {
    assert GraphInvariant.ConsistentAt(m.graph, cell);
  }

  lemma Attacks(s: State, m: Memory, cell: Id, id: Id, base: Snapshot, leaf: bool)
    requires Reviewable(s, m, cell, id, base)
    ensures Role(m.graph, cell).Some?
    ensures After(s, Attack(cell, id, leaf)) ==
            Become(s, 0, Attacked(m, cell, id, base, leaf), Idle).(
              files := s.files.(workspaces := s.files.workspaces[id := base]))
  {
    ReviewDispatched(s, m, cell, id, base);
    ReviewAllowed(m, s.roles, cell, id, base, leaf);
    RunOne(s, [], Dispatch(0, id, cell, true));
    assert [] + [Dispatch(0, id, cell, true)] == [Dispatch(0, id, cell, true)];
    RunOne(s, [Dispatch(0, id, cell, true)], Act(0, RecordPreReview(cell, true, leaf, []), Some(id)));
    BecomesTwice(s, 0, Dispatched(m, id, cell, base), Attacked(m, cell, id, base, leaf));
  }

  // ---------- the way to the refusal ----------

  /** What the run shows of itself between its stretches. */
  ghost predicate Shows(s: State, steps: seq<Step>, m: Memory, roles: set<string>, pointer: Snapshot, jobs: set<Id>) {
    && Of(s, 0) == Up(m, Idle) && s.roles == roles && Staffed(m.graph.def, roles) && GraphInvariant.Inv(m.graph)
    && Current(s.files) == Some(pointer) && s.files.workspaces.Keys == jobs == m.jobs.Keys && ForwardSteps(steps)
  }

  lemma ActsAreForward(ops: seq<Op>)
    requires Forward(ops)
    ensures ForwardSteps(Acts(0, ops))
  {}

  lemma RootStretch(source: Snapshot, runId: string, def: Definition, roles: set<string>)
    returns (steps: seq<Step>, m: Memory)
    requires Staffed(def, roles)
    ensures Shows(After(Start(source, runId, def, roles), steps), steps, m, roles, source, {})
    ensures Standing(m.graph, "root", PreReview) && m.graph.cells.Keys == {"root"}
    ensures m.graph.cells["root"].obligations == ["o"] && m.graph.cells["root"].scope == ["root"]
    ensures m.graph.cells["root"].claims == map[] && m.graph.def == def
  {
    var ops := RootCalls(def, ["o"]);
    RootPlanned(runId, def, ["o"]);
    m := Memory(Workflow.Run(Start(source, runId, def, roles).origin, ops), map[]);
    steps := [Open(0)] + Acts(0, ops);
    OpensAndActs(source, runId, def, roles, ops);
  }

  /** A new run opened and led through calls that need no job. */
  lemma OpensAndActs(source: Snapshot, runId: string, def: Definition, roles: set<string>, ops: seq<Op>)
    requires Staffed(def, roles) && Forward(ops) && forall i | 0 <= i < |ops| :: Bare(ops[i])
    ensures var s0 := Start(source, runId, def, roles);
            var m := Memory(Workflow.Run(s0.origin, ops), map[]);
            m.graph.def == def
            && Shows(After(s0, [Open(0)] + Acts(0, ops)), [Open(0)] + Acts(0, ops), m, roles, source, {})
  {
    var s0, steps := Start(source, runId, def, roles), [Open(0)] + Acts(0, ops);
    var m := Memory(Workflow.Run(s0.origin, ops), map[]);
    OpenIsForward(ops);
    GraphInvariant.EveryRunKeepsInv(runId, def, ops);
    Defined(runId, def, ops);
    BareOpenAndAct(source, runId, def, roles, ops);
    OpenedShows(source, runId, def, roles, After(s0, steps), steps, m);
  }

  lemma OpenIsForward(ops: seq<Op>)
    requires Forward(ops)
    ensures ForwardSteps([Open(0)] + Acts(0, ops))
  {
    ActsAreForward(ops);
    ForwardJoin([Open(0)], Acts(0, ops));
  }

  lemma OpenedShows(source: Snapshot, runId: string, def: Definition, roles: set<string>, t: State, steps: seq<Step>,
                    m: Memory)
    requires t == Become(Start(source, runId, def, roles), 0, m, Idle) && m.jobs == map[]
    requires Staffed(m.graph.def, roles) && GraphInvariant.Inv(m.graph) && ForwardSteps(steps)
    ensures Shows(t, steps, m, roles, source, {})
  {}

  lemma BareOpenAndAct(source: Snapshot, runId: string, def: Definition, roles: set<string>, ops: seq<Op>)
    requires Manned(def, roles) && forall i | 0 <= i < |ops| :: Bare(ops[i])
    ensures var s0 := Start(source, runId, def, roles);
            After(s0, [Open(0)] + Acts(0, ops)) ==
            Become(s0, 0, Memory(Workflow.Run(s0.origin, ops), map[]), Idle)
  {
    var s0 := Start(source, runId, def, roles);
    Opens(source, runId, def, roles);
    AfterInTwo(s0, [Open(0)], Acts(0, ops));
    Defined(runId, def, ops);
    BareIsPlain(s0.origin, ops);
    PlainRun(Become(s0, 0, s0.saved, Idle), 0, s0.saved, ops);
    BecomesTwice(s0, 0, s0.saved, Memory(Workflow.Run(s0.origin, ops), map[]));
  }

  /** Neither a review nor a closing. */
  predicate Bare(op: Op) {
    !op.RecordPreReview? && !op.RecordPostReview? && !op.Close?
  }

  lemma BareIsPlain(g: Graph, ops: seq<Op>)
    requires forall i | 0 <= i < |ops| :: Bare(ops[i])
    ensures AllPlain(g, ops)
  {
    forall i {:trigger PlainAt(g, ops, i)} | 0 <= i < |ops| ensures PlainAt(g, ops, i) { assert Bare(ops[i]); }
  }

  /** Calls that need no job, made between two stretches. */
  lemma BareStretch(s0: State, steps: seq<Step>, m: Memory, roles: set<string>, pointer: Snapshot, jobs: set<Id>,
                    ops: seq<Op>)
    requires Shows(After(s0, steps), steps, m, roles, pointer, jobs) && Forward(ops)
    requires forall i | 0 <= i < |ops| :: Bare(ops[i])
    ensures Shows(After(s0, steps + Acts(0, ops)), steps + Acts(0, ops), m.(graph := Workflow.Run(m.graph, ops)), roles,
                  pointer, jobs)
  {
    BareIsPlain(m.graph, ops);
    PlainStretch(s0, steps, m, roles, pointer, jobs, ops);
  }

  lemma ForwardJoin(first: seq<Step>, rest: seq<Step>)
    requires ForwardSteps(first) && ForwardSteps(rest)
    ensures ForwardSteps(first + rest)
  {}

  lemma AttackedShows(m: Memory, cell: Id, id: Id, base: Snapshot, leaf: bool)
    requires Standing(m.graph, cell, PreReview) && Role(m.graph, cell).Some?
    ensures var n := Attacked(m, cell, id, base, leaf);
            && Standing(n.graph, cell, if leaf then Implementation else Children)
            && Changes(m.graph, n.graph, cell, m.graph.cells[cell].(
                 preReviewAccepted := true, leaf := Some(leaf), seams := []))
            && n.jobs == m.jobs[id := n.jobs[id]] && id in n.jobs && n.jobs[id].cellId == cell
  {
    if leaf { LeafReviewCall(m.graph, cell); } else { CompositeReviewCall(m.graph, cell); }
  }

  lemma AttackStretch(s0: State, steps: seq<Step>, m: Memory, roles: set<string>, pointer: Snapshot, jobs: set<Id>,
                      cell: Id, id: Id, leaf: bool)
    requires Shows(After(s0, steps), steps, m, roles, pointer, jobs) && Standing(m.graph, cell, PreReview)
    requires SafeJob(id) && id !in jobs
    ensures Role(m.graph, cell).Some?
    ensures Shows(After(s0, steps + Attack(cell, id, leaf)), steps + Attack(cell, id, leaf),
                  Attacked(m, cell, id, pointer, leaf), roles, pointer, jobs + {id})
  {
    var s, longer := After(s0, steps), steps + Attack(cell, id, leaf);
    Attacks(s, m, cell, id, pointer, leaf);
    AfterInTwo(s0, steps, Attack(cell, id, leaf));
    ForwardJoin(steps, Attack(cell, id, leaf));
    AttackIsShown(s, After(s0, longer), steps, longer, m, roles, pointer, jobs, cell, id, leaf);
  }

  lemma AttackIsShown(s: State, t: State, steps: seq<Step>, longer: seq<Step>, m: Memory, roles: set<string>,
                      pointer: Snapshot, jobs: set<Id>, cell: Id, id: Id, leaf: bool)
    requires Shows(s, steps, m, roles, pointer, jobs) && Standing(m.graph, cell, PreReview) && ForwardSteps(longer)
    requires Role(m.graph, cell).Some?
    requires t == Become(s, 0, Attacked(m, cell, id, pointer, leaf), Idle).(
                    files := s.files.(workspaces := s.files.workspaces[id := pointer]))
    ensures Shows(t, longer, Attacked(m, cell, id, pointer, leaf), roles, pointer, jobs + {id})
  {
    AttackedShows(m, cell, id, pointer, leaf);
  }

  lemma ShipStretch(s0: State, steps: seq<Step>, m: Memory, roles: set<string>, pointer: Snapshot, jobs: set<Id>,
                    cell: Id, id: Id, candidate: Snapshot) returns (n: Memory)
    requires Shows(After(s0, steps), steps, m, roles, pointer, jobs) && ReadyLeaf(m.graph, cell)
    requires SafeJob(id) && id !in jobs && candidate != ""
    ensures Shows(After(s0, steps + Shipping(0, cell, id, candidate)), steps + Shipping(0, cell, id, candidate),
                  n, roles, candidate, jobs + {id})
    ensures PromotedIn(m, n, cell, id, pointer, candidate)
  {
    var ship := Shipping(0, cell, id, candidate);
    AfterInTwo(s0, steps, ship);
    ForwardJoin(steps, ship);
    n := Ships(After(s0, steps), steps, steps + ship, m, roles, pointer, jobs, cell, id, candidate);
  }

  lemma Ships(s: State, steps: seq<Step>, longer: seq<Step>, m: Memory, roles: set<string>, pointer: Snapshot,
              jobs: set<Id>, cell: Id, id: Id, candidate: Snapshot) returns (n: Memory)
    requires Shows(s, steps, m, roles, pointer, jobs) && ReadyLeaf(m.graph, cell) && ForwardSteps(longer)
    requires SafeJob(id) && id !in jobs && candidate != ""
    ensures Shows(After(s, Shipping(0, cell, id, candidate)), longer, n, roles, candidate, jobs + {id})
    ensures PromotedIn(m, n, cell, id, pointer, candidate)
  {
    var t := After(s, Shipping(0, cell, id, candidate));
    DeliverAndPromote(s, 0, m, cell, id, pointer, candidate);
    n := Of(t, 0).memory;
    ShippedShows(s, t, steps, longer, m, roles, pointer, jobs, cell, id, candidate);
  }

  lemma ShippedShows(s: State, t: State, steps: seq<Step>, longer: seq<Step>, m: Memory, roles: set<string>,
                     pointer: Snapshot, jobs: set<Id>, cell: Id, id: Id, candidate: Snapshot)
    requires Shows(s, steps, m, roles, pointer, jobs) && ForwardSteps(longer)
    requires Promotes(s, t, 0, m, cell, id, pointer, candidate)
    ensures Shows(t, longer, Of(t, 0).memory, roles, candidate, jobs + {id})
  {
    OtherLeafStays(m, Of(t, 0).memory, cell, id, pointer, candidate, cell + "'");
  }

  lemma CloseStretch(s0: State, steps: seq<Step>, m: Memory, roles: set<string>, pointer: Snapshot, jobs: set<Id>,
                     cell: Id)
    requires Shows(After(s0, steps), steps, m, roles, pointer, jobs) && Payable(m, cell)
    ensures Shows(After(s0, steps + [Act(0, Op.Close(cell), None)]), steps + [Act(0, Op.Close(cell), None)],
                  Acted(m, Op.Close(cell)), roles, pointer, jobs)
  {
    RunOne(s0, steps, Act(0, Op.Close(cell), None));
    GraphInvariant.StepKeepsInv(m.graph, Op.Close(cell));
    DefinitionOf(m.graph, [Op.Close(cell)]);
    assert [Op.Close(cell)][..0] == [];
    assert Workflow.Run(m.graph, []) == m.graph;
    assert Workflow.Run(m.graph, [Op.Close(cell)]) == Apply(m.graph, Op.Close(cell)).graph;
    ForwardJoin(steps, [Act(0, Op.Close(cell), None)]);
  }

  /** Calls of the root once its child is closed. */
  const ROOT_CALLS: seq<Op> := [Op.BeginIntegration("root"), Op.RecordIntegration("root", true, ["evidence"]),
                                Op.RecordPostReview("root", true, ["evidence"])]

  /** A root over one child, each at its kind, no claim on either. */
  ghost predicate Family(g: Graph, root: Kind, child: Kind) {
    && Standing(g, "root", root) && Standing(g, "child", child)
    && g.cells["root"].children == ["child"] && g.cells["root"].claims == map[] && g.cells["child"].claims == map[]
    && g.cells["child"].children == []
  }

  lemma RootCallsEnd(g: Graph)
    requires Family(g, Children, Closed)
    ensures var g1 := Apply(g, ROOT_CALLS[0]).graph;
            var g2 := Apply(g1, ROOT_CALLS[1]).graph;
            var g3 := Apply(g2, ROOT_CALLS[2]).graph;
            && Standing(g2, "root", PostReview)
            && "root" in g3.cells && g3.cells["root"].children == ["child"] && Apply(g3, Op.Close("root")).error.None?
  {
    assert "child"[0] != "root"[0];
    IntegrationCall(g, "root");
    var g1 := Apply(g, ROOT_CALLS[0]).graph;
    IntegratedCall(g1, "root", ["evidence"]);
    var g2 := Apply(g1, ROOT_CALLS[1]).graph;
    PostReviewCall(g2, "root", ["evidence"]);
    var g3 := Apply(g2, ROOT_CALLS[2]).graph;
    assert g3.cells["child"] == g.cells["child"] && g3.def == g.def;
    CompositeCloseCall(g3, "root");
  }

  lemma RootCallsRun(g: Graph)
    requires Family(g, Children, Closed)
    ensures var g' := Workflow.Run(g, ROOT_CALLS);
            && "root" in g'.cells && g'.cells["root"].children == ["child"] && Apply(g', Op.Close("root")).error.None?
    ensures AllPlain(g, ROOT_CALLS)
  {
    RootCallsEnd(g);
    ThreeCalls(g, ROOT_CALLS);
    forall i {:trigger PlainAt(g, ROOT_CALLS, i)} | 0 <= i < |ROOT_CALLS| ensures PlainAt(g, ROOT_CALLS, i) {
      if i == 2 { assert Plain(Workflow.Run(g, ROOT_CALLS[..2]), ROOT_CALLS[2]); }
    }
  }

  lemma ThreeCalls(g: Graph, ops: seq<Op>)
    requires |ops| == 3
    ensures Workflow.Run(g, ops[..0]) == g && Workflow.Run(g, ops[..1]) == Apply(g, ops[0]).graph
    ensures Workflow.Run(g, ops[..2]) == Apply(Apply(g, ops[0]).graph, ops[1]).graph
    ensures Workflow.Run(g, ops) == Apply(Apply(Apply(g, ops[0]).graph, ops[1]).graph, ops[2]).graph
  {
    assert ops[..1][..0] == [] && ops[..2][..1] == ops[..1] && ops[..3][..2] == ops[..2] && ops[..3] == ops;
    assert Workflow.Run(g, []) == g && ops[..0] == [];
  }

  function SplitOps(child: Cell): seq<Op> {
    [Op.Decompose("root", [CHILD])] + Early(child)
  }

  lemma RootHasSplit(runId: string, g: Graph)
    requires Standing(g, "root", Children) && g.cells.Keys == {"root"}
    requires g.cells["root"].obligations == ["o"] && g.cells["root"].scope == ["root"]
    requires g.cells["root"].leaf == Some(false) && g.cells["root"].preReviewAccepted && g.cells["root"].claims == map[]
    ensures Family(Apply(g, Op.Decompose("root", [CHILD])).graph, Children, Contract)
  {
    var c := g.cells["root"];
    OneChildSplits(runId, g.def);
    SameSplit(g, c, runId, g.def, [CHILD], ["o"]);
    assert GraphInvariant.ConsistentAt(g, "root");
    SplitStands(g, [CHILD]);
    GraphInvariant.DecomposeEffect(g, c, [CHILD]);
    var g' := Apply(g, Op.Decompose("root", [CHILD])).graph;
    assert ChildIds([CHILD]) == ["child"] && [CHILD][0].cellId == "child";
    assert Standing(g', [CHILD][0].cellId, Contract);
  }

  predicate IsPlanned(c: Cell) {
    c == Planned(c)
  }

  lemma ChildPlanned(g: Graph)
    requires Family(g, Children, Contract)
    ensures var g' := Workflow.Run(g, Early(g.cells["child"]));
            Family(g', Children, PreReview) && IsPlanned(g'.cells["child"])
  {
    assert "child"[0] != "root"[0];
    assert GraphInvariant.ConsistentAt(g, "child");
    EarlyCalls(g, "child");
  }

  /** To a root about to be split under its review. */
  lemma ReviewedStretch(source: Snapshot, runId: string, def: Definition, roles: set<string>)
    returns (steps: seq<Step>, m: Memory)
    requires Staffed(def, roles)
    ensures Shows(After(Start(source, runId, def, roles), steps), steps, m, roles, source, {"review"})
    ensures Family(Apply(m.graph, Op.Decompose("root", [CHILD])).graph, Children, Contract)
    ensures m.jobs["review"].cellId == "root"
  {
    var early, m1 := RootStretch(source, runId, def, roles);
    assert SafeJob("review");
    AttackStretch(Start(source, runId, def, roles), early, m1, roles, source, {}, "root", "review", false);
    m := Attacked(m1, "root", "review", source, false);
    AttackedShows(m1, "root", "review", source, false);
    RootHasSplit(runId, m.graph);
    steps := early + Attack("root", "review", false);
    assert {} + {"review"} == {"review"};
  }

  lemma SplitRuns(g: Graph)
    requires Family(Apply(g, Op.Decompose("root", [CHILD])).graph, Children, Contract)
    ensures var child := Apply(g, Op.Decompose("root", [CHILD])).graph.cells["child"];
            var g' := Workflow.Run(g, SplitOps(child));
            Family(g', Children, PreReview) && IsPlanned(g'.cells["child"])
  {
    var g1 := Apply(g, Op.Decompose("root", [CHILD])).graph;
    var child := g1.cells["child"];
    Staleness.RunInTwo(g, [Op.Decompose("root", [CHILD])], Early(child));
    assert [Op.Decompose("root", [CHILD])] == [] + [Op.Decompose("root", [CHILD])];
    OneMore(g, [], Op.Decompose("root", [CHILD]));
    ChildPlanned(g1);
  }

  /** To a root that was split under its review, over a child about to be reviewed. */
  lemma SplitStretch(source: Snapshot, runId: string, def: Definition, roles: set<string>)
    returns (steps: seq<Step>, m: Memory)
    requires Staffed(def, roles)
    ensures Shows(After(Start(source, runId, def, roles), steps), steps, m, roles, source, {"review"})
    ensures Family(m.graph, Children, PreReview) && IsPlanned(m.graph.cells["child"])
    ensures m.jobs["review"].cellId == "root"
  {
    var reviewed, m2 := ReviewedStretch(source, runId, def, roles);
    var ops := SplitOps(Apply(m2.graph, Op.Decompose("root", [CHILD])).graph.cells["child"]);
    BareStretch(Start(source, runId, def, roles), reviewed, m2, roles, source, {"review"}, ops);
    SplitRuns(m2.graph);
    steps := reviewed + Acts(0, ops);
    m := m2.(graph := Workflow.Run(m2.graph, ops));
  }

  lemma ChildReady(m: Memory, base: Snapshot)
    requires Family(m.graph, Children, PreReview) && Role(m.graph, "child").Some? && IsPlanned(m.graph.cells["child"])
    ensures var n := Attacked(m, "child", "attack", base, true);
            Family(n.graph, Children, Implementation) && ReadyLeaf(n.graph, "child")
  {
    assert "child"[0] != "root"[0];
    assert GraphInvariant.Placed(m.graph, "child");
    AttackedShows(m, "child", "attack", base, true);
    PreparedIsReady(m.graph.cells["child"], Attacked(m, "child", "attack", base, true).graph.cells["child"]);
  }

  /** To the child reviewed, delivered and promoted. */
  lemma DeliveredStretch(source: Snapshot, runId: string, def: Definition, roles: set<string>, x: Snapshot)
    returns (steps: seq<Step>, m: Memory)
    requires Staffed(def, roles) && x != ""
    ensures Shows(After(Start(source, runId, def, roles), steps), steps, m, roles, x, {"review", "attack", "job"})
    ensures Family(m.graph, Children, PostReview) && m.graph.cells["child"].postReviewAccepted
    ensures m.graph.cells["child"].verificationPassed
    ensures m.jobs["review"].cellId == "root" && WorksOn(m, "job", "child") && m.jobs["job"].promoted
  {
    var s0 := Start(source, runId, def, roles);
    var split, m1 := SplitStretch(source, runId, def, roles);
    JobsDiffer();
    AttackStretch(s0, split, m1, roles, source, {"review"}, "child", "attack", true);
    ChildReady(m1, source);
    var m2 := Attacked(m1, "child", "attack", source, true);
    assert m2.jobs["review"] == m1.jobs["review"];
    var attacked := split + Attack("child", "attack", true);
    m := ShippedStretch(s0, attacked, m2, roles, source, x);
    steps := attacked + Shipping(0, "child", "job", x);
  }

  lemma ShippedStretch(s0: State, steps: seq<Step>, m: Memory, roles: set<string>, source: Snapshot, x: Snapshot)
    returns (n: Memory)
    requires Shows(After(s0, steps), steps, m, roles, source, {"review"} + {"attack"}) && x != ""
    requires Family(m.graph, Children, Implementation) && ReadyLeaf(m.graph, "child")
    requires "review" in m.jobs && m.jobs["review"].cellId == "root"
    ensures Shows(After(s0, steps + Shipping(0, "child", "job", x)), steps + Shipping(0, "child", "job", x),
                  n, roles, x, {"review", "attack", "job"})
    ensures Family(n.graph, Children, PostReview) && n.graph.cells["child"].postReviewAccepted
    ensures n.graph.cells["child"].verificationPassed
    ensures n.jobs["review"].cellId == "root" && WorksOn(n, "job", "child") && n.jobs["job"].promoted
  {
    JobsDiffer();
    n := ShipStretch(s0, steps, m, roles, source, {"review"} + {"attack"}, "child", "job", x);
    ShippedFamily(m, n, source, x);
    assert {"review"} + {"attack"} + {"job"} == {"review", "attack", "job"};
  }

  lemma JobsDiffer()
    ensures SafeJob("review") && SafeJob("attack") && SafeJob("job")
    ensures "review" != "attack" && "review" != "job" && "attack" != "job"
  {
    assert "review"[0] != "attack"[0] && "review"[0] != "job"[0] && "attack"[0] != "job"[0];
  }

  lemma ShippedFamily(m: Memory, n: Memory, base: Snapshot, x: Snapshot)
    requires PromotedIn(m, n, "child", "job", base, x) && Family(m.graph, Children, Implementation)
    requires "review" in m.jobs && m.jobs["review"].cellId == "root" && GraphInvariant.Inv(n.graph)
    ensures Family(n.graph, Children, PostReview) && n.graph.cells["child"].postReviewAccepted
    ensures n.graph.cells["child"].verificationPassed
    ensures "review" in n.jobs && n.jobs["review"].cellId == "root" && WorksOn(n, "job", "child")
  {
    assert "child"[0] != "root"[0];
    JobsDiffer();
    OtherLeafStays(m, n, "child", "job", base, x, "root");
  }

  lemma ChildCloses(m: Memory)
    requires Family(m.graph, Children, PostReview) && m.graph.cells["child"].postReviewAccepted
    requires m.graph.cells["child"].verificationPassed && WorksOn(m, "job", "child") && m.jobs["job"].promoted
    ensures Payable(m, "child") && Family(Acted(m, Op.Close("child")).graph, Children, Closed)
  {
    assert "child"[0] != "root"[0];
    CloseCall(m.graph, "child");
  }

  /** To the root over its closed child. */
  lemma ClosedStretch(source: Snapshot, runId: string, def: Definition, roles: set<string>, x: Snapshot)
    returns (steps: seq<Step>, m: Memory)
    requires Staffed(def, roles) && x != ""
    ensures Shows(After(Start(source, runId, def, roles), steps), steps, m, roles, x, {"review", "attack", "job"})
    ensures Family(m.graph, Children, Closed) && WorksOn(m, "review", "root")
  {
    var delivered, m1 := DeliveredStretch(source, runId, def, roles, x);
    ChildCloses(m1);
    CloseStretch(Start(source, runId, def, roles), delivered, m1, roles, x, {"review", "attack", "job"}, "child");
    m := Acted(m1, Op.Close("child"));
    steps := delivered + [Act(0, Op.Close("child"), None)];
  }

  /** To the root reviewed over its closed child, and ready to close. */
  lemma ClosableStretch(source: Snapshot, runId: string, def: Definition, roles: set<string>, x: Snapshot)
    returns (steps: seq<Step>, m: Memory)
    requires Staffed(def, roles) && x != ""
    ensures Shows(After(Start(source, runId, def, roles), steps), steps, m, roles, x, {"review", "attack", "job"})
    ensures "root" in m.graph.cells && m.graph.cells["root"].children == ["child"]
    ensures Apply(m.graph, Op.Close("root")).error.None? && WorksOn(m, "review", "root")
  {
    var closed, m1 := ClosedStretch(source, runId, def, roles, x);
    RootCallsRun(m1.graph);
    RootCallsGoOn();
    PlainStretch(Start(source, runId, def, roles), closed, m1, roles, x, {"review", "attack", "job"}, ROOT_CALLS);
    m := m1.(graph := Workflow.Run(m1.graph, ROOT_CALLS));
    steps := closed + Acts(0, ROOT_CALLS);
  }

  lemma RootCallsGoOn()
    ensures Forward(ROOT_CALLS) && forall i | 0 <= i < |ROOT_CALLS| :: !ROOT_CALLS[i].RecordPreReview?
  {}

  lemma PlainStretch(s0: State, steps: seq<Step>, m: Memory, roles: set<string>, pointer: Snapshot, jobs: set<Id>,
                     ops: seq<Op>)
    requires Shows(After(s0, steps), steps, m, roles, pointer, jobs) && Forward(ops) && AllPlain(m.graph, ops)
    requires forall i | 0 <= i < |ops| :: !ops[i].RecordPreReview?
    ensures Shows(After(s0, steps + Acts(0, ops)), steps + Acts(0, ops), m.(graph := Workflow.Run(m.graph, ops)), roles,
                  pointer, jobs)
  {
    PlainRun(After(s0, steps), 0, m, ops);
    AfterInTwo(s0, steps, Acts(0, ops));
    ActsAreForward(ops);
    ForwardJoin(steps, Acts(0, ops));
    GraphInvariant.RunKeepsInv(m.graph, ops);
    DefinitionOf(m.graph, ops);
  }

  /** From a new run on: a root is split under its configured review, its child is
      reviewed, delivered, promoted and closed, and the root integrated and reviewed.
      Its graph accepts the closing; the system refuses it for good, for the sake of
      the job that reviewed the split. */
  lemma ReviewedRootCannotClose(source: Snapshot, runId: string, def: Definition, roles: set<string>, x: Snapshot)
    returns (steps: seq<Step>, m: Memory)
    requires Staffed(def, roles) && x != ""
    ensures ForwardSteps(steps) && Of(After(Start(source, runId, def, roles), steps), 0) == Up(m, Idle)
    ensures "root" in m.graph.cells && m.graph.cells["root"].children != []
    ensures Apply(m.graph, Op.Close("root")).error == None
    ensures var t := Next(After(Start(source, runId, def, roles), steps), Act(0, Op.Close("root"), None));
            Of(t, 0).Up? && !Of(t, 0).memory.graph.IsClosed("root")
  {
    steps, m := ClosableStretch(source, runId, def, roles, x);
    CompositeClosesExactly(source, runId, def, roles, steps, 0, m, "root");
  }
}
