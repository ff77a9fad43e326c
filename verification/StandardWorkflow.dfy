/** The workflow the acceptance tests load, and why loading alone is not enough. */
module StandardWorkflow {
  import opened Basics
  import opened Workflow

  const STANDARD := Definition(1, "contract_basis", map[
    "contract_basis" := PhaseDefinition(Contract, Some("contract_adversary"), map["accepted" := "tests_before_plan"]),
    "tests_before_plan" := PhaseDefinition(Tests, Some("blind_test_author"), map["frozen" := "planning"]),
    "planning" := PhaseDefinition(Plan, Some("planner"), map["planned" := "decomposition_attack"]),
    "decomposition_attack" := PhaseDefinition(PreReview, Some("decomposition_adversary"),
                                              map["leaf" := "implementation", "composite" := "children"]),
    "children" := PhaseDefinition(Children, None, map["integrated" := "integration"]),
    "implementation" := PhaseDefinition(Implementation, Some("implementer"), map["verified" := "result_attack"]),
    "integration" := PhaseDefinition(Integration, Some("integrator"), map["verified" := "result_attack"]),
    "result_attack" := PhaseDefinition(PostReview, Some("result_adversary"), map["accepted" := "closed"]),
    "closed" := PhaseDefinition(Closed, None, map[]),
    "parked" := PhaseDefinition(Other("parked"), None, map["reopen" := "contract_basis"])])

  /** The one phase of each kind. */
  function PhaseOf(kind: Kind): string {
    match kind
    case Contract => "contract_basis"
    case Tests => "tests_before_plan"
    case Plan => "planning"
    case PreReview => "decomposition_attack"
    case Children => "children"
    case Implementation => "implementation"
    case Integration => "integration"
    case PostReview => "result_attack"
    case Closed => "closed"
    case Other(_) => "parked"
  }

  lemma OnePhaseEach(k: Kind)
    requires k in LIFECYCLE
    ensures STANDARD.PhasesOfKind(k) == {PhaseOf(k)}
  {
    assert PhaseOf(k) in STANDARD.phases && STANDARD.phases[PhaseOf(k)].kind == k;
    forall p | p in STANDARD.PhasesOfKind(k) ensures p == PhaseOf(k) {
      assert p in STANDARD.phases && STANDARD.phases[p].kind == k;
    }
  }

  lemma LinkTargets(from: Kind, outcome: string, to: Kind)
    requires Link(from, outcome, to)
    ensures from in LIFECYCLE && to in LIFECYCLE
    ensures STANDARD.Target(PhaseOf(from), outcome) == Some(PhaseOf(to))
  {
    match from
    case Contract =>
    case Tests =>
    case Plan =>
    case PreReview =>
    case Children =>
    case Implementation =>
    case Integration =>
    case PostReview =>
    case _ =>
  }

  lemma KindDecides(p: string, kind: Kind)
    requires kind in LIFECYCLE
    ensures STANDARD.KindOf(p) == kind <==> p == PhaseOf(kind)
  {
    OnePhaseEach(kind);
    assert p in STANDARD.PhasesOfKind(kind) <==> p in {PhaseOf(kind)};
    assert Other("") !in LIFECYCLE;
  }

  lemma LinksLead(from: Kind, outcome: string, to: Kind)
    requires Link(from, outcome, to)
    ensures Leads(STANDARD, from, outcome, to)
  {
    LinkTargets(from, outcome, to);
    forall p {:trigger STANDARD.Target(p, outcome)} | STANDARD.KindOf(p) == from
      ensures STANDARD.Target(p, outcome).Some? && STANDARD.KindOf(STANDARD.Target(p, outcome).value) == to
    {
      KindDecides(p, from);
      KindDecides(PhaseOf(to), to);
    }
  }

  /** The standard workflow has the shape every result about runs asks for. */
  lemma StandardIsWellShaped()
    ensures WellShaped(STANDARD)
  {
    forall k {:trigger STANDARD.PhasesOfKind(k)} | k in LIFECYCLE
        ensures |STANDARD.PhasesOfKind(k)| == 1 && STANDARD.PhasesOfKind(k) != {} {
      OnePhaseEach(k);
    }
    forall from, outcome, to {:trigger Link(from, outcome, to)} | Link(from, outcome, to)
      ensures Leads(STANDARD, from, outcome, to)
    {
      LinksLead(from, outcome, to);
    }
    forall p, o | STANDARD.Target(p, o).Some? ensures STANDARD.Target(p, o).value in STANDARD.phases {}
  }

  /** The standard workflow with an accepted contract leading straight to closed. */
  const SHORTCUT := STANDARD.(phases := STANDARD.phases["contract_basis" :=
    PhaseDefinition(Contract, Some("contract_adversary"), map["accepted" := "closed"])])

  lemma ShortcutIsLoadable()
    ensures Loadable(SHORTCUT)
  {
    forall k {:trigger SHORTCUT.PhasesOfKind(k)} | k in LIFECYCLE ensures SHORTCUT.PhasesOfKind(k) != {} {
      assert PhaseOf(k) in SHORTCUT.PhasesOfKind(k);
    }
    forall p, o | SHORTCUT.Target(p, o).Some? ensures SHORTCUT.Target(p, o).value in SHORTCUT.phases {}
  }

  /** Loading alone lets a root close after two calls, with nothing verified and no
      test frozen. */
  lemma LoadableIsNotEnough(runId: string, id: Id, refs: References)
    ensures Loadable(SHORTCUT)
    ensures var g := Run(Fresh(runId, SHORTCUT), [CreateRoot(id, refs, ["o"], []), AcceptContract(id)]);
            g.IsClosed(id) && !g.cells[id].verificationPassed && !g.cells[id].postReviewAccepted
                && g.cells[id].obligationMap == map[]
  {
    ShortcutIsLoadable();
    var ops := [CreateRoot(id, refs, ["o"], []), AcceptContract(id)];
    var g0 := Fresh(runId, SHORTCUT);
    assert ops[..1] == [ops[0]] && ops[..1][..0] == [];
    assert Run(g0, []) == g0;
    var g1 := Apply(g0, ops[0]).graph;
    assert Run(g0, ops[..1]) == g1;
    assert id in g1.cells && g1.cells[id].phase == "contract_basis" && g1.def == SHORTCUT;
    assert Run(g0, ops) == Apply(g1, ops[1]).graph;
  }
}
