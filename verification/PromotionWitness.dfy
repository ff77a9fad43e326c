/** Runs, from a new run on, after which replaying the events does not give the
    pointer: overlapping promotions, a repeated one, and one that crashed. */
module PromotionWitness {
  import opened Basics
  import opened Workflow
  import opened Promotion
  import opened PromotionSteps
  import opened PromotionReplay
  import opened Walkthrough
  import opened StandardWorkflow
  import GraphInvariant
  import Endorsement
  import Staleness

  /** Implementations are dispatched for; post-reviews are made by no configured role. */
  ghost predicate Manned(d: Definition, roles: set<string>) {
    && WellShaped(d)
    && forall p | p in d.phases && d.phases[p].kind in {Implementation, PostReview} ::
         d.phases[p].role.Some? && (d.phases[p].kind == Implementation <==> d.phases[p].role.value in roles)
  }

  /** Neither are pre-reviews. */
  ghost predicate Unattacked(d: Definition, roles: set<string>) {
    forall p | p in d.phases && d.phases[p].kind == PreReview ::
      d.phases[p].role.Some? && d.phases[p].role.value !in roles
  }

  ghost predicate Workable(d: Definition, roles: set<string>) {
    Manned(d, roles) && Unattacked(d, roles)
  }

  lemma WorkablePhase(p: string, kind: Kind)
    requires p in STANDARD.phases && STANDARD.phases[p].kind == kind
    requires kind == Implementation || kind == PreReview || kind == PostReview
    ensures STANDARD.phases[p].role.Some?
    ensures kind == Implementation <==> STANDARD.phases[p].role.value == "implementer"
  {
    KindDecides(p, kind);
    assert "implementer"[0] != "decomposition_adversary"[0] && "implementer"[0] != "result_adversary"[0];
  }

  /** The standard workflow under a configuration of its implementer alone. */
  lemma StandardIsWorkable()
    ensures Workable(STANDARD, {"implementer"})
  {
    StandardIsWellShaped();
    forall p | p in STANDARD.phases && STANDARD.phases[p].kind in {Implementation, PostReview}
      ensures STANDARD.phases[p].role.Some?
      ensures STANDARD.phases[p].kind == Implementation <==> STANDARD.phases[p].role.value in {"implementer"}
    {
      WorkablePhase(p, STANDARD.phases[p].kind);
    }
    forall p | p in STANDARD.phases && STANDARD.phases[p].kind == PreReview
      ensures STANDARD.phases[p].role.Some? && STANDARD.phases[p].role.value !in {"implementer"}
    {
      WorkablePhase(p, PreReview);
    }
  }

  lemma {:induction false} AfterInTwo(s: State, first: seq<Step>, rest: seq<Step>)
    ensures After(s, first + rest) == After(After(s, first), rest)
  {
    if rest == [] {
      assert first + rest == first;
    } else {
      var n := |rest| - 1;
      assert (first + rest)[..|first + rest| - 1] == first + rest[..n];
      AfterInTwo(s, first, rest[..n]);
    }
  }

  lemma AfterOne(s: State, step: Step)
    ensures After(s, [step]) == Next(s, step)
  {
    assert [step][..0] == [];
    assert After(s, []) == s;
  }

  // ---------- calls on the graph ----------

  function Acts(p: nat, ops: seq<Op>): seq<Step> {
    seq(|ops|, i requires 0 <= i < |ops| => Act(p, ops[i], None))
  }

  /** The call needs no job: it is no review, or the review of an unconfigured role. */
  ghost predicate Plain(g: Graph, op: Op) {
    && !op.Close?
    && (op.RecordPreReview? ==> op.id in g.cells && g.Kind(op.id) == PreReview)
    && (op.RecordPostReview? ==> op.id in g.cells && g.Kind(op.id) == PostReview)
  }

  ghost predicate PlainAt(g: Graph, ops: seq<Op>, i: int)
    requires 0 <= i < |ops|
  {
    Plain(Workflow.Run(g, ops[..i]), ops[i])
  }

  ghost predicate AllPlain(g: Graph, ops: seq<Op>) {
    forall i {:trigger PlainAt(g, ops, i)} | 0 <= i < |ops| :: PlainAt(g, ops, i)
  }

  lemma PlainIsAllowed(m: Memory, roles: set<string>, op: Op)
    requires Manned(m.graph.def, roles) && GraphInvariant.Inv(m.graph) && Plain(m.graph, op)
    requires op.RecordPreReview? ==> Unattacked(m.graph.def, roles)
    ensures Allowed(m, roles, op, None)
  {
    if op.RecordPreReview? || op.RecordPostReview? {
      assert GraphInvariant.ConsistentAt(m.graph, op.id);
    }
  }

  lemma OnePlainAct(s: State, p: nat, m: Memory, op: Op)
    requires Manned(m.graph.def, s.roles) && GraphInvariant.Inv(m.graph) && Plain(m.graph, op)
    requires op.RecordPreReview? ==> Unattacked(m.graph.def, s.roles)
    ensures Next(Become(s, p, m, Idle), Act(p, op, None)) == Become(s, p, Acted(m, op), Idle)
  {
    PlainIsAllowed(m, s.roles, op);
    assert Of(Become(s, p, m, Idle), p) == Up(m, Idle);
    assert s.processes[p := Up(m, Idle)][p := Up(Acted(m, op), Idle)] == s.processes[p := Up(Acted(m, op), Idle)];
  }

  lemma PlainBefore(g: Graph, ops: seq<Op>, n: nat)
    requires AllPlain(g, ops) && n <= |ops|
    ensures AllPlain(g, ops[..n])
  {
    forall i {:trigger PlainAt(g, ops[..n], i)} | 0 <= i < n ensures PlainAt(g, ops[..n], i) {
      assert ops[..n][..i] == ops[..i] && PlainAt(g, ops, i);
    }
  }

  lemma {:induction false} PlainRun(s: State, p: nat, m: Memory, ops: seq<Op>)
    requires Of(s, p) == Up(m, Idle) && Manned(m.graph.def, s.roles) && GraphInvariant.Inv(m.graph)
    requires AllPlain(m.graph, ops)
    requires Unattacked(m.graph.def, s.roles) || forall i | 0 <= i < |ops| :: !ops[i].RecordPreReview?
    ensures After(s, Acts(p, ops)) == Become(s, p, m.(graph := Workflow.Run(m.graph, ops)), Idle)
  {
    if ops == [] {
      assert s.processes[p := s.processes[p]] == s.processes;
    } else {
      var n := |ops| - 1;
      PlainBefore(m.graph, ops, n);
      PlainRun(s, p, m, ops[..n]);
      assert Acts(p, ops)[..n] == Acts(p, ops[..n]);
      var g := Workflow.Run(m.graph, ops[..n]);
      GraphInvariant.RunKeepsInv(m.graph, ops[..n]);
      DefinitionOf(m.graph, ops[..n]);
      assert PlainAt(m.graph, ops, n);
      OnePlainAct(s, p, m.(graph := g), ops[n]);
    }
  }

  lemma {:induction false} DefinitionOf(g: Graph, ops: seq<Op>)
    requires GraphInvariant.Inv(g)
    ensures Workflow.Run(g, ops).def == g.def
  {
    if ops != [] {
      DefinitionOf(g, ops[..|ops| - 1]);
      GraphInvariant.RunKeepsInv(g, ops[..|ops| - 1]);
      Endorsement.DefinitionStays(Workflow.Run(g, ops[..|ops| - 1]), ops[|ops| - 1]);
    }
  }

  // ---------- from a ready leaf to a promotion ----------

  function Deliver(p: nat, cell: Id, id: Id, candidate: Snapshot): seq<Step> {
    [Dispatch(p, id, cell, true), Verify(p, id, candidate, ["evidence"]),
     Act(p, RecordPostReview(cell, true, ["evidence"]), None)]
  }

  /** A leaf that lacks only its implementation. */
  ghost predicate ReadyLeaf(g: Graph, cell: Id) {
    && Standing(g, cell, Implementation) && LeafReadiness(g.cells[cell]) == []
    && g.cells[cell].claims == map[]
  }

  ghost predicate Deliverable(s: State, p: nat, m: Memory, cell: Id, id: Id, base: Snapshot) {
    && Of(s, p) == Up(m, Idle) && Manned(m.graph.def, s.roles) && ReadyLeaf(m.graph, cell)
    && SafeJob(id) && id !in s.files.workspaces && id !in m.jobs
    && Current(s.files) == Some(base)
  }

  /** The job of a delivery, verified and reviewed, in the memory after it. */
  ghost predicate DeliveredTo(m: Memory, n: Memory, cell: Id, id: Id, base: Snapshot, candidate: Snapshot) {
    && cell in m.graph.cells && cell in n.graph.cells && n.graph.def == m.graph.def
    && n.graph.cells == m.graph.cells[cell := n.graph.cells[cell]] && GraphInvariant.Inv(n.graph)
    && id in n.jobs && n.jobs == m.jobs[id := n.jobs[id]]
    && n.jobs[id].id == id && n.jobs[id].cellId == cell && n.jobs[id].base == base
    && n.jobs[id].candidate == Some(candidate) && !n.jobs[id].promoted
    && Promotable(n.graph, n.jobs[id]) && n.graph.Kind(cell) == PostReview
    && n.graph.cells[cell] == m.graph.cells[cell].(
         verificationPassed := true, postReviewAccepted := true,
         phase := n.graph.cells[cell].phase, revision := n.graph.cells[cell].revision)
  }

  lemma DispatchStep(s: State, p: nat, m: Memory, cell: Id, id: Id, base: Snapshot)
    requires Deliverable(s, p, m, cell, id, base)
    ensures var role := Role(m.graph, cell);
            && role.Some?
            && Next(s, Dispatch(p, id, cell, true)) ==
               Become(s, p, Dispatched(m, id, cell, base), Idle).(
                 files := s.files.(workspaces := s.files.workspaces[id := base]))
  {
    assert GraphInvariant.ConsistentAt(m.graph, cell);
  }

  lemma VerifyStep(s: State, p: nat, m: Memory, cell: Id, id: Id, candidate: Snapshot)
    requires Of(s, p) == Up(m, Idle) && ReadyLeaf(m.graph, cell) && candidate != ""
    requires id in m.jobs && m.jobs[id].cellId == cell && !m.jobs[id].verified
    requires Role(m.graph, cell) == Some(m.jobs[id].role)
    ensures Next(s, Verify(p, id, candidate, ["evidence"])) ==
            Become(s, p, Proved(m, id, candidate, ["evidence"]), Idle).(
              files := s.files.(stored := s.files.stored + {candidate}))
  {
    VerificationCall(m.graph, cell, ["evidence"]);
  }

  ghost function DeliveredMemory(m: Memory, cell: Id, id: Id, base: Snapshot, candidate: Snapshot): Memory
    requires cell in m.graph.cells && Role(m.graph, cell).Some?
  {
    Acted(Proved(Dispatched(m, id, cell, base), id, candidate, ["evidence"]),
          RecordPostReview(cell, true, ["evidence"]))
  }

  lemma MemoryDelivers(m: Memory, roles: set<string>, cell: Id, id: Id, base: Snapshot, candidate: Snapshot)
    requires Manned(m.graph.def, roles) && ReadyLeaf(m.graph, cell) && candidate != ""
    requires Role(m.graph, cell).Some?
    ensures DeliveredTo(m, DeliveredMemory(m, cell, id, base, candidate), cell, id, base, candidate)
    ensures var g := Apply(m.graph, RecordVerification(cell, true, ["evidence"])).graph;
            GraphInvariant.Inv(g) && g.def == m.graph.def && Plain(g, RecordPostReview(cell, true, ["evidence"]))
  {
    VerificationCall(m.graph, cell, ["evidence"]);
    PostReviewCall(Apply(m.graph, RecordVerification(cell, true, ["evidence"])).graph, cell, ["evidence"]);
  }

  lemma ThreeSteps(s: State, a: Step, b: Step, c: Step)
    ensures After(s, [a, b, c]) == Next(Next(Next(s, a), b), c)
  {
    assert [a, b, c] == [] + [a] + [b] + [c];
    RunOne(s, [], a);
    RunOne(s, [] + [a], b);
    RunOne(s, [] + [a] + [b], c);
  }

  lemma FirstTwoSteps(s: State, p: nat, m: Memory, cell: Id, id: Id, base: Snapshot, candidate: Snapshot)
    requires Deliverable(s, p, m, cell, id, base) && candidate != ""
    ensures Role(m.graph, cell).Some?
    ensures Next(Next(s, Dispatch(p, id, cell, true)), Verify(p, id, candidate, ["evidence"])) ==
            Become(s, p, Proved(Dispatched(m, id, cell, base), id, candidate, ["evidence"]), Idle).(
              files := Files(s.files.stored + {candidate}, s.files.pointer, s.files.workspaces[id := base]))
  {
    DispatchStep(s, p, m, cell, id, base);
    VerifyStep(Next(s, Dispatch(p, id, cell, true)), p, Dispatched(m, id, cell, base), cell, id, candidate);
  }

  lemma Delivers(s: State, p: nat, m: Memory, cell: Id, id: Id, base: Snapshot, candidate: Snapshot)
    requires Deliverable(s, p, m, cell, id, base) && candidate != ""
    ensures Role(m.graph, cell).Some?
    ensures After(s, Deliver(p, cell, id, candidate)) ==
            Become(s, p, DeliveredMemory(m, cell, id, base, candidate), Idle).(
              files := Files(s.files.stored + {candidate}, s.files.pointer, s.files.workspaces[id := base]))
    ensures DeliveredTo(m, DeliveredMemory(m, cell, id, base, candidate), cell, id, base, candidate)
  {
    var steps := Deliver(p, cell, id, candidate);
    ThreeSteps(s, steps[0], steps[1], steps[2]);
    FirstTwoSteps(s, p, m, cell, id, base, candidate);
    MemoryDelivers(m, s.roles, cell, id, base, candidate);
    var t := s.(files := Files(s.files.stored + {candidate}, s.files.pointer, s.files.workspaces[id := base]));
    var n := Proved(Dispatched(m, id, cell, base), id, candidate, ["evidence"]);
    OnePlainAct(t, p, n, steps[2].op);
  }

  /** A promotion, up to its swap and up to its event. */
  function Exchanging(p: nat, id: Id): seq<Step> {
    [Check(p, id), Swap(p)]
  }

  /** The process can check this job and swap it in. */
  predicate Eligible(s: State, p: nat, m: Memory, id: Id) {
    && Of(s, p) == Up(m, Idle) && id in m.jobs && m.jobs[id].id == id && Promotable(m.graph, m.jobs[id])
    && m.jobs[id].candidate.value in s.files.stored && Current(s.files) == Some(m.jobs[id].base)
  }

  lemma CheckStep(s: State, p: nat, m: Memory, id: Id)
    requires Eligible(s, p, m, id)
    ensures Next(s, Check(p, id)) == Become(s, p, m, Checked(m.jobs[id]))
    ensures Ripe(Become(s, p, m, Checked(m.jobs[id])), p, m.jobs[id])
  {}

  lemma SwapStep(s: State, p: nat, m: Memory, id: Id)
    requires Eligible(s, p, m, id)
    ensures var j := m.jobs[id];
            Next(Become(s, p, m, Checked(j)), Swap(p)) ==
            Become(s, p, Paid(m, id), Swapped(j)).(
              files := s.files.(pointer := j.candidate), chain := s.chain + [Exchange(m.graph, j)])
  {
    var j := m.jobs[id];
    var s1 := Become(s, p, m, Checked(j));
    assert Of(s1, p) == Up(m, Checked(j));
    assert s1.processes[p := Up(Paid(m, id), Swapped(j))] == s.processes[p := Up(Paid(m, id), Swapped(j))];
  }

  lemma Exchanges(s: State, p: nat, m: Memory, id: Id)
    requires Eligible(s, p, m, id)
    ensures var j := m.jobs[id];
            After(s, Exchanging(p, id)) ==
            Become(s, p, Paid(m, id), Swapped(j)).(
              files := s.files.(pointer := j.candidate), chain := s.chain + [Exchange(m.graph, j)])
  {
    assert Exchanging(p, id) == [] + [Check(p, id)] + [Swap(p)];
    RunOne(s, [], Check(p, id));
    RunOne(s, [] + [Check(p, id)], Swap(p));
    CheckStep(s, p, m, id);
    SwapStep(s, p, m, id);
  }

  // ---------- two ready leaves ----------

  const A := ChildSpec("a", ["o"], "owner", ["root", "a"], None)
  const B := ChildSpec("b", ["p"], "owner", ["root", "b"], None)

  lemma TwoChildrenSplit(runId: string, def: Definition)
    ensures GoodSplit(NewRoot(runId, def, ["o", "p"]), RootCell(def, ["o", "p"]), [A, B])
  {
    assert [A, B][0].obligations == ["o"] && [A, B][1].obligations == ["p"];
    assert A.scope[..1] == ["root"] && B.scope[..1] == ["root"];
    assert "o" in [A, B][0].obligations && "p" in [A, B][1].obligations;
    assert Covered([A, B]) == {"o", "p"} == SetOf(["o", "p"]);
    assert |"root"| != |"a"| && |"root"| != |"b"| && "a"[0] != "b"[0];
  }

  lemma PlainSooner(g: Graph, first: seq<Op>, rest: seq<Op>, i: nat)
    requires AllPlain(g, first) && i < |first|
    ensures PlainAt(g, first + rest, i)
  {
    assert (first + rest)[..i] == first[..i];
    assert PlainAt(g, first, i);
  }

  lemma PlainLater(g: Graph, first: seq<Op>, rest: seq<Op>, i: nat)
    requires AllPlain(Workflow.Run(g, first), rest) && |first| <= i < |first| + |rest|
    ensures PlainAt(g, first + rest, i)
  {
    var k := i - |first|;
    assert (first + rest)[..i] == first + rest[..k] && (first + rest)[i] == rest[k];
    Staleness.RunInTwo(g, first, rest[..k]);
    assert PlainAt(Workflow.Run(g, first), rest, k);
  }

  lemma PlainThroughout(g: Graph, first: seq<Op>, rest: seq<Op>, i: nat)
    requires AllPlain(g, first) && AllPlain(Workflow.Run(g, first), rest) && i < |first + rest|
    ensures PlainAt(g, first + rest, i)
  {
    if i < |first| {
      PlainSooner(g, first, rest, i);
    } else {
      PlainLater(g, first, rest, i);
    }
  }

  lemma PlainJoin(g: Graph, first: seq<Op>, rest: seq<Op>)
    requires AllPlain(g, first) && AllPlain(Workflow.Run(g, first), rest)
    ensures AllPlain(g, first + rest)
  {
    forall i {:trigger PlainAt(g, first + rest, i)} | 0 <= i < |first + rest| ensures PlainAt(g, first + rest, i) {
      PlainThroughout(g, first, rest, i);
    }
  }

  lemma OneIsPlain(g: Graph, op: Op)
    requires Plain(g, op)
    ensures AllPlain(g, [op])
  {
    assert [op][..0] == [];
    assert Workflow.Run(g, []) == g;
  }

  lemma LeafCallsArePlain(g: Graph, id: Id)
    requires Standing(g, id, Contract)
    ensures AllPlain(g, LeafCalls(g.cells[id]))
  {
    var c := g.cells[id];
    assert GraphInvariant.ConsistentAt(g, id);
    EarlyCalls(g, id);
    OneIsPlain(Workflow.Run(g, Early(c)), RecordPreReview(id, true, true, []));
    PlainJoin(g, Early(c), [RecordPreReview(id, true, true, [])]);
  }

  lemma SplitCallsArePlain(runId: string, def: Definition, specs: seq<ChildSpec>, obligations: seq<Id>)
    requires WellShaped(def) && obligations != [] && Distinct(obligations)
    ensures AllPlain(Fresh(runId, def), SplitCalls(def, specs, obligations))
  {
    var g0, calls := Fresh(runId, def), RootCalls(def, obligations);
    var review, split := RecordPreReview("root", true, false, []), Decompose("root", specs);
    RootPlanned(runId, def, obligations);
    OneIsPlain(Workflow.Run(g0, calls), review);
    PlainJoin(g0, calls, [review]);
    OneIsPlain(Workflow.Run(g0, calls + [review]), split);
    PlainJoin(g0, calls + [review], [split]);
  }

  lemma Ripens(g: Graph, x: Id)
    requires Standing(g, x, Contract) && g.cells[x].claims == map[]
    ensures ReadyLeaf(Workflow.Run(g, LeafCalls(g.cells[x])), x)
    ensures AllPlain(g, LeafCalls(g.cells[x]))
  {
    BecomesLeaf(g, x);
    LeafCallsArePlain(g, x);
  }

  lemma OtherStaysPut(g: Graph, x: Id, y: Id)
    requires Standing(g, x, Contract) && y in g.cells && x != y
    ensures var g' := Workflow.Run(g, LeafCalls(g.cells[x]));
            GraphInvariant.Inv(g') && g'.def == g.def && y in g'.cells && g'.cells[y] == g.cells[y]
  {
    BecomesLeaf(g, x);
  }

  /** Two Cells made ready one after the other. */
  lemma BothRipen(g: Graph, x: Id, y: Id) returns (ops: seq<Op>)
    requires Standing(g, x, Contract) && Standing(g, y, Contract) && x != y
    requires g.cells[x].claims == map[] && g.cells[y].claims == map[]
    ensures var g' := Workflow.Run(g, ops); ReadyLeaf(g', x) && ReadyLeaf(g', y)
    ensures AllPlain(g, ops)
  {
    var first := LeafCalls(g.cells[x]);
    var g1 := Workflow.Run(g, first);
    Ripens(g, x);
    OtherStaysPut(g, x, y);
    var second := ThenRipens(g1, x, y);
    Staleness.RunInTwo(g, first, second);
    PlainJoin(g, first, second);
    ops := first + second;
  }

  lemma ThenRipens(g: Graph, x: Id, y: Id) returns (ops: seq<Op>)
    requires ReadyLeaf(g, x) && Standing(g, y, Contract) && x != y && g.cells[y].claims == map[]
    ensures var g' := Workflow.Run(g, ops); ReadyLeaf(g', x) && ReadyLeaf(g', y)
    ensures AllPlain(g, ops)
  {
    ops := LeafCalls(g.cells[y]);
    Ripens(g, y);
    OtherStaysPut(g, y, x);
  }

  /** Calls after which a root has two children that lack only their implementation. */
  lemma TwoReadyLeaves(runId: string, def: Definition) returns (ops: seq<Op>)
    requires WellShaped(def)
    ensures var g := Workflow.Run(Fresh(runId, def), ops); ReadyLeaf(g, "a") && ReadyLeaf(g, "b")
    ensures AllPlain(Fresh(runId, def), ops)
  {
    var g0, split := Fresh(runId, def), SplitCalls(def, [A, B], ["o", "p"]);
    TwoChildrenSplit(runId, def);
    RootSplits(runId, def, [A, B], ["o", "p"]);
    SplitCallsArePlain(runId, def, [A, B], ["o", "p"]);
    var g := Workflow.Run(g0, split);
    assert Standing(g, [A, B][0].cellId, Contract) && Standing(g, [A, B][1].cellId, Contract);
    assert "a"[0] != "b"[0];
    var rest := BothRipen(g, "a", "b");
    Staleness.RunInTwo(g0, split, rest);
    PlainJoin(g0, split, rest);
    ops := split + rest;
  }

  /** A new run with two processes that remember two ready leaves and no job. */
  ghost predicate TwoReady(s: State, m: Memory, source: Snapshot) {
    && Of(s, 0) == Up(m, Idle) && Of(s, 1) == Up(m, Idle)
    && Workable(m.graph.def, s.roles) && ReadyLeaf(m.graph, "a") && ReadyLeaf(m.graph, "b") && m.jobs == map[]
    && s.files == Files({source}, Some(source), map[]) && s.log == [] && s.chain == []
    && s.processes.Keys == {0, 1}
  }

  lemma Defined(runId: string, def: Definition, ops: seq<Op>)
    requires WellShaped(def)
    ensures Workflow.Run(Fresh(runId, def), ops).def == def && GraphInvariant.Inv(Fresh(runId, def))
  {
    GraphInvariant.EveryRunKeepsInv(runId, def, []);
    assert Workflow.Run(Fresh(runId, def), []) == Fresh(runId, def);
    DefinitionOf(Fresh(runId, def), ops);
  }

  lemma OpenAndAct(source: Snapshot, runId: string, def: Definition, roles: set<string>, ops: seq<Op>)
    requires Workable(def, roles) && AllPlain(Fresh(runId, def), ops)
    ensures var s0 := Start(source, runId, def, roles);
            After(s0, [Open(0)] + Acts(0, ops)) ==
            Become(s0, 0, Memory(Workflow.Run(s0.origin, ops), map[]), Idle)
  {
    var s0 := Start(source, runId, def, roles);
    Opens(source, runId, def, roles);
    AfterInTwo(s0, [Open(0)], Acts(0, ops));
    Defined(runId, def, ops);
    PlainRun(Become(s0, 0, s0.saved, Idle), 0, s0.saved, ops);
    BecomesTwice(s0, 0, s0.saved, Memory(Workflow.Run(s0.origin, ops), map[]));
  }

  lemma Opens(source: Snapshot, runId: string, def: Definition, roles: set<string>)
    ensures var s0 := Start(source, runId, def, roles);
            After(s0, [Open(0)]) == Become(s0, 0, s0.saved, Idle)
  {
    AfterOne(Start(source, runId, def, roles), Open(0));
  }

  lemma BecomesTwice(s: State, p: nat, m: Memory, n: Memory)
    ensures Become(Become(s, p, m, Idle), p, n, Idle) == Become(s, p, n, Idle)
  {
    assert s.processes[p := Up(m, Idle)][p := Up(n, Idle)] == s.processes[p := Up(n, Idle)];
  }

  lemma ReadyRun(source: Snapshot, runId: string, def: Definition, roles: set<string>)
    returns (steps: seq<Step>, m: Memory)
    requires Workable(def, roles)
    ensures TwoReady(After(Start(source, runId, def, roles), steps), m, source)
  {
    var s0 := Start(source, runId, def, roles);
    var ops := TwoReadyLeaves(runId, def);
    m := Memory(Workflow.Run(s0.origin, ops), map[]);
    OpenAndAct(source, runId, def, roles, ops);
    assert m.graph.def == def by { Defined(runId, def, ops); }
    steps := [Open(0)] + Acts(0, ops) + [Save(0)] + [Open(1)];
    RunOne(s0, [Open(0)] + Acts(0, ops), Save(0));
    RunOne(s0, [Open(0)] + Acts(0, ops) + [Save(0)], Open(1));
    SaveAndOpen(s0, m);
  }

  lemma SaveAndOpen(s: State, m: Memory)
    requires Current(s.files).Some? && s.processes == map[]
    ensures Next(Next(Become(s, 0, m, Idle), Save(0)), Open(1)) ==
            s.(saved := m, processes := map[0 := Up(m, Idle), 1 := Up(m, Idle)])
  {
    var t := Next(Become(s, 0, m, Idle), Save(0));
    assert t == Become(s, 0, m, Idle).(saved := m);
    assert t.processes[1 := Up(m, Idle)] == map[0 := Up(m, Idle), 1 := Up(m, Idle)];
  }

  lemma JobNamesAreSafe()
    ensures SafeJob("job-a") && SafeJob("job-b") && "job-a" != "job-b"
  {
    assert "job-a"[4] != "job-b"[4];
  }

  /** As DeliveredTo, and promoted. */
  ghost predicate PromotedIn(m: Memory, n: Memory, cell: Id, id: Id, base: Snapshot, candidate: Snapshot) {
    id in n.jobs && n.jobs[id].promoted
    && DeliveredTo(m, n.(jobs := n.jobs[id := n.jobs[id].(promoted := false)]), cell, id, base, candidate)
  }

  lemma PayingPromotes(m: Memory, n: Memory, cell: Id, id: Id, base: Snapshot, candidate: Snapshot)
    requires DeliveredTo(m, n, cell, id, base, candidate)
    ensures PromotedIn(m, Paid(n, id), cell, id, base, candidate)
  {
    assert Paid(n, id).jobs[id := Paid(n, id).jobs[id].(promoted := false)] == n.jobs;
  }

  /** A process after a delivery whose job it swapped in but did not yet record. */
  ghost predicate Exchanged(s: State, t: State, p: nat, m: Memory, cell: Id, id: Id, base: Snapshot,
      candidate: Snapshot) {
    && OthersStay(s, t, p) && t.roles == s.roles && t.log == s.log && |t.chain| == |s.chain| + 1
    && t.files == Files(s.files.stored + {candidate}, Some(candidate), s.files.workspaces[id := base])
    && Of(t, p).Up? && Of(t, p).promoter.Swapped? && PromotedIn(m, Of(t, p).memory, cell, id, base, candidate)
    && Of(t, p).promoter.job == Of(t, p).memory.jobs[id].(promoted := false)
  }

  lemma DeliverAndSwap(s: State, p: nat, m: Memory, cell: Id, id: Id, base: Snapshot, candidate: Snapshot)
    requires Deliverable(s, p, m, cell, id, base) && candidate != ""
    ensures Exchanged(s, After(s, Deliver(p, cell, id, candidate) + Exchanging(p, id)), p, m, cell, id, base, candidate)
  {
    Delivers(s, p, m, cell, id, base, candidate);
    AfterInTwo(s, Deliver(p, cell, id, candidate), Exchanging(p, id));
    DeliveredSwaps(s, p, m, DeliveredMemory(m, cell, id, base, candidate), cell, id, base, candidate);
  }

  lemma DeliveredSwaps(s: State, p: nat, m: Memory, n: Memory, cell: Id, id: Id, base: Snapshot, candidate: Snapshot)
    requires DeliveredTo(m, n, cell, id, base, candidate) && Current(s.files) == Some(base)
    ensures var s1 := Become(s, p, n, Idle).(
                        files := Files(s.files.stored + {candidate}, s.files.pointer, s.files.workspaces[id := base]));
            Exchanged(s, After(s1, Exchanging(p, id)), p, m, cell, id, base, candidate)
  {
    var s1 := Become(s, p, n, Idle).(
                files := Files(s.files.stored + {candidate}, s.files.pointer, s.files.workspaces[id := base]));
    assert Of(s1, p) == Up(n, Idle);
    Exchanges(s1, p, n, id);
    PayingPromotes(m, n, cell, id, base, candidate);
  }

  // ---------- overlapping ----------

  /** The first process swaps, the second starts from there and swaps, the second
      writes its event, and only then the first. */
  function Overlapping(x: Snapshot, y: Snapshot): seq<Step> {
    Deliver(0, "a", "job-a", x) + Exchanging(0, "job-a")
    + (Deliver(1, "b", "job-b", y) + Exchanging(1, "job-b")) + [Record(1), Record(0)]
  }

  lemma RecordedLast(s: State, i: Job, j: Job)
    requires Of(s, 0).Up? && Of(s, 0).promoter == Swapped(i) && i.candidate.Some?
    requires Of(s, 1).Up? && Of(s, 1).promoter == Swapped(j) && j.candidate.Some?
    requires s.log == [] && i.id != j.id
    ensures var t := After(s, [Record(1), Record(0)]);
            t.files == s.files && t.chain == s.chain && Replayed(t.log) == i.candidate
  {
    assert [Record(1), Record(0)] == [] + [Record(1)] + [Record(0)];
    RunOne(s, [], Record(1));
    RunOne(s, [] + [Record(1)], Record(0));
    SwappedRecords(s, 1, j);
    var t := Next(s, Record(1));
    assert t.log == [Promoted(j.id, j.candidate.value, j.base)] && Of(t, 0) == Of(s, 0);
    SwappedRecords(t, 0, i);
  }

  lemma OverlapFrom(s: State, m: Memory, source: Snapshot, x: Snapshot, y: Snapshot)
    requires TwoReady(s, m, source) && x != "" && y != ""
    ensures var t := After(s, Overlapping(x, y));
            t.files.pointer == Some(y) && Replayed(t.log) == Some(x) && t.chain != []
  {
    JobNamesAreSafe();
    var first := Deliver(0, "a", "job-a", x) + Exchanging(0, "job-a");
    var second := Deliver(1, "b", "job-b", y) + Exchanging(1, "job-b");
    DeliverAndSwap(s, 0, m, "a", "job-a", source, x);
    var s1 := After(s, first);
    assert Of(s1, 1) == Up(m, Idle) && Current(s1.files) == Some(x);
    DeliverAndSwap(s1, 1, m, "b", "job-b", x, y);
    var s2 := After(s1, second);
    assert Of(s2, 0) == Of(s1, 0);
    AfterInTwo(s, first, second);
    AfterInTwo(s, first + second, [Record(1), Record(0)]);
    RecordedLast(s2, Of(s2, 0).promoter.job, Of(s2, 1).promoter.job);
  }

  /** From a new run on and without a crash, two promotions of two Cells overlap, and
      replay ends on the candidate that the second replaced. */
  lemma OverlapParts(source: Snapshot, runId: string, def: Definition, roles: set<string>, x: Snapshot, y: Snapshot)
    returns (steps: seq<Step>)
    requires Workable(def, roles) && x != "" && y != ""
    ensures var s := After(Start(source, runId, def, roles), steps);
            s.files.pointer == Some(y) && Replayed(s.log) == Some(x) && (Agrees(s) <==> x == y)
  {
    var before, m := ReadyRun(source, runId, def, roles);
    AfterInTwo(Start(source, runId, def, roles), before, Overlapping(x, y));
    OverlapFrom(After(Start(source, runId, def, roles), before), m, source, x, y);
    steps := before + Overlapping(x, y);
  }

  // ---------- crashed ----------

  lemma CrashIsQuiet(s: State, t: State)
    requires s.processes.Keys == {0, 1} && OthersStay(s, t, 0) && Of(s, 1).Up? && Of(s, 1).promoter.Idle?
    ensures Quiet(Next(t, Crash(0)))
  {
    var u := Next(t, Crash(0));
    forall p {:trigger Busy(u, p)} ensures !Busy(u, p) {
      assert p != 0 ==> Of(u, p) == Of(t, p) == Of(s, p);
    }
  }

  /** A promoter that dies after its swap leaves the pointer moved and no event. */
  lemma CrashParts(source: Snapshot, runId: string, def: Definition, roles: set<string>, x: Snapshot)
    returns (steps: seq<Step>)
    requires Workable(def, roles) && x != ""
    ensures var s := After(Start(source, runId, def, roles), steps);
            s.files.pointer == Some(x) && Replayed(s.log) == None && s.chain != [] && Quiet(s) && !Agrees(s)
  {
    var s0 := Start(source, runId, def, roles);
    var before, m := ReadyRun(source, runId, def, roles);
    var s := After(s0, before);
    JobNamesAreSafe();
    var swap := Deliver(0, "a", "job-a", x) + Exchanging(0, "job-a");
    DeliverAndSwap(s, 0, m, "a", "job-a", source, x);
    AfterInTwo(s0, before, swap);
    RunOne(s0, before + swap, Crash(0));
    steps := before + swap + [Crash(0)];
    CrashIsQuiet(s, After(s, swap));
  }

  // ---------- repeated ----------

  /** A process after a delivery it promoted and recorded. */
  ghost predicate Promotes(s: State, t: State, p: nat, m: Memory, cell: Id, id: Id, base: Snapshot,
      candidate: Snapshot) {
    && t.roles == s.roles && |t.chain| == |s.chain| + 1
    && t.files == Files(s.files.stored + {candidate}, Some(candidate), s.files.workspaces[id := base])
    && Of(t, p).Up? && Of(t, p).promoter.Idle? && PromotedIn(m, Of(t, p).memory, cell, id, base, candidate)
    && t.log == Report(s.log, id, candidate, base)
  }

  function Shipping(p: nat, cell: Id, id: Id, candidate: Snapshot): seq<Step> {
    Deliver(p, cell, id, candidate) + Exchanging(p, id) + [Record(p)]
  }

  lemma DeliverAndPromote(s: State, p: nat, m: Memory, cell: Id, id: Id, base: Snapshot, candidate: Snapshot)
    requires Deliverable(s, p, m, cell, id, base) && candidate != ""
    ensures Promotes(s, After(s, Shipping(p, cell, id, candidate)), p, m, cell, id, base, candidate)
  {
    var swap := Deliver(p, cell, id, candidate) + Exchanging(p, id);
    DeliverAndSwap(s, p, m, cell, id, base, candidate);
    RunOne(s, swap, Record(p));
    SwappedRecords(After(s, swap), p, Of(After(s, swap), p).promoter.job);
  }

  /** The other leaf is as ready as it was, and a promoted job can be promoted again
      once the pointer is back at its base. */
  lemma OtherLeafStays(m: Memory, n: Memory, cell: Id, id: Id, base: Snapshot, candidate: Snapshot, other: Id)
    requires PromotedIn(m, n, cell, id, base, candidate) && other != cell
    ensures ReadyLeaf(m.graph, other) ==> ReadyLeaf(n.graph, other)
    ensures n.jobs.Keys == m.jobs.Keys + {id} && n.graph.def == m.graph.def
    ensures forall k | k in m.jobs && k != id :: n.jobs[k] == m.jobs[k]
    ensures forall k | k in m.jobs && k != id && m.jobs[k].cellId == other && Promotable(m.graph, m.jobs[k]) ::
              n.jobs[k] == m.jobs[k] && Promotable(n.graph, n.jobs[k])
  {
    if other in m.graph.cells { assert n.graph.cells[other] == m.graph.cells[other]; }
    var was := n.jobs[id := n.jobs[id].(promoted := false)];
    assert was == m.jobs[id := was[id]];
    assert n.jobs.Keys == was.Keys;
    assert forall k | k in m.jobs && k != id :: was[k] == m.jobs[k] && n.jobs[k] == was[k];
  }

  lemma PromoteAgain(s: State, p: nat, m: Memory, id: Id)
    requires Eligible(s, p, m, id) && Reported(s.log, id)
    ensures var t := After(s, Exchanging(p, id) + [Record(p)]);
            t.files.pointer == m.jobs[id].candidate && t.log == s.log && t.chain != []
  {
    Exchanges(s, p, m, id);
    RunOne(s, Exchanging(p, id), Record(p));
    SwappedRecords(After(s, Exchanging(p, id)), p, m.jobs[id]);
  }

  /** One promoter at a time: a job is promoted, undone by the next, and promoted again. */
  function Repeating(source: Snapshot, x: Snapshot): seq<Step> {
    Shipping(0, "a", "job-a", x) + Shipping(0, "b", "job-b", source) + (Exchanging(0, "job-a") + [Record(0)])
  }

  lemma FirstPromotion(s: State, m: Memory, source: Snapshot, x: Snapshot)
    requires TwoReady(s, m, source) && x != ""
    ensures var t := After(s, Shipping(0, "a", "job-a", x));
            && Promotes(s, t, 0, m, "a", "job-a", source, x)
            && Deliverable(t, 0, Of(t, 0).memory, "b", "job-b", x) && t.log == [Promoted("job-a", x, source)]
  {
    JobNamesAreSafe();
    assert "a"[0] != "b"[0];
    DeliverAndPromote(s, 0, m, "a", "job-a", source, x);
    OtherLeafStays(m, Of(After(s, Shipping(0, "a", "job-a", x)), 0).memory, "a", "job-a", source, x, "b");
  }

  lemma UndoneIsEligible(s: State, t: State, m: Memory, source: Snapshot, x: Snapshot)
    requires Promotes(s, t, 0, m, "b", "job-b", x, source) && x in s.files.stored
    requires "job-a" in m.jobs && Promotable(m.graph, m.jobs["job-a"])
    requires m.jobs["job-a"].id == "job-a" && m.jobs["job-a"].cellId == "a"
    requires m.jobs["job-a"].base == source && m.jobs["job-a"].candidate == Some(x)
    ensures Eligible(t, 0, Of(t, 0).memory, "job-a") && Of(t, 0).memory.jobs["job-a"].candidate == Some(x)
  {
    JobNamesAreSafe();
    assert "a"[0] != "b"[0];
    OtherLeafStays(m, Of(t, 0).memory, "b", "job-b", x, source, "a");
  }

  lemma SecondPromotion(s: State, m: Memory, source: Snapshot, x: Snapshot)
    requires Deliverable(s, 0, m, "b", "job-b", x) && x in s.files.stored && source != ""
    requires "job-a" in m.jobs && Promotable(m.graph, m.jobs["job-a"])
    requires m.jobs["job-a"].id == "job-a" && m.jobs["job-a"].cellId == "a"
    requires m.jobs["job-a"].base == source && m.jobs["job-a"].candidate == Some(x)
    requires s.log == [Promoted("job-a", x, source)]
    ensures var t := After(s, Shipping(0, "b", "job-b", source));
            && Of(t, 0).Up? && Eligible(t, 0, Of(t, 0).memory, "job-a")
            && Of(t, 0).memory.jobs["job-a"].candidate == Some(x)
            && t.log == [Promoted("job-a", x, source), Promoted("job-b", source, x)]
  {
    DeliverAndPromote(s, 0, m, "b", "job-b", x, source);
    JobNamesAreSafe();
    UndoneIsEligible(s, After(s, Shipping(0, "b", "job-b", source)), m, source, x);
    assert !Reported(s.log, "job-b");
  }

  lemma TwoPromotions(s: State, m: Memory, source: Snapshot, x: Snapshot)
    requires TwoReady(s, m, source) && x != "" && source != ""
    ensures var t := After(s, Shipping(0, "a", "job-a", x) + Shipping(0, "b", "job-b", source));
            && Of(t, 0).Up? && Eligible(t, 0, Of(t, 0).memory, "job-a")
            && Of(t, 0).memory.jobs["job-a"].candidate == Some(x)
            && t.log == [Promoted("job-a", x, source), Promoted("job-b", source, x)]
  {
    FirstPromotion(s, m, source, x);
    var s1 := After(s, Shipping(0, "a", "job-a", x));
    AfterInTwo(s, Shipping(0, "a", "job-a", x), Shipping(0, "b", "job-b", source));
    SecondPromotion(s1, Of(s1, 0).memory, source, x);
  }

  /** Its event is already there, so replay ends on the undoing. */
  lemma RepetitionParts(source: Snapshot, runId: string, def: Definition, roles: set<string>, x: Snapshot)
    returns (steps: seq<Step>)
    requires Workable(def, roles) && x != "" && source != ""
    ensures var s := After(Start(source, runId, def, roles), steps);
            s.files.pointer == Some(x) && Replayed(s.log) == Some(source) && (Agrees(s) <==> x == source)
  {
    var s0 := Start(source, runId, def, roles);
    var before, m := ReadyRun(source, runId, def, roles);
    var s := After(s0, before);
    TwoPromotions(s, m, source, x);
    var two := Shipping(0, "a", "job-a", x) + Shipping(0, "b", "job-b", source);
    var t := After(s, two);
    assert Reported(t.log, "job-a") by { assert t.log[0] in t.log; }
    PromoteAgain(t, 0, Of(t, 0).memory, "job-a");
    AfterInTwo(s, two, Exchanging(0, "job-a") + [Record(0)]);
    AfterInTwo(s0, before, Repeating(source, x));
    steps := before + Repeating(source, x);
  }
}
