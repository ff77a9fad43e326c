/** Jobs and closing in runs whose memories see no reopening, test revision or issue
    routing: what a closed Cell that was dispatched for has behind it, and why a
    composite Cell that was dispatched for never closes. */
module PromotionClosing {
  import opened Basics
  import opened Workflow
  import opened Promotion
  import opened PromotionSteps
  import Closure
  import GraphInvariant
  import Endorsement
  import Promises
  import opened StandardWorkflow

  predicate ForwardStep(step: Step) {
    step.Act? ==> !Backward(step.op)
  }

  predicate ForwardSteps(steps: seq<Step>) {
    forall i | 0 <= i < |steps| :: ForwardStep(steps[i])
  }

  /** No role works on a closed Cell, as in the standard workflow. */
  predicate Roleless(d: Definition) {
    forall p | p in d.phases && d.phases[p].kind == Closed :: d.phases[p].role == None
  }

  /** Every pre-review is made under a configured role. */
  predicate Configured(d: Definition, roles: set<string>) {
    forall p | p in d.phases && d.phases[p].kind == PreReview ::
      d.phases[p].role.Some? ==> d.phases[p].role.value in roles
  }

  // ---------- what a memory keeps ----------

  predicate WorksOn(m: Memory, id: Id, cellId: Id) {
    id in m.jobs && m.jobs[id].cellId == cellId
  }

  /** The verification of the job's Cell stands. */
  predicate Stands(m: Memory, id: Id)
    requires id in m.jobs
  {
    m.jobs[id].cellId in m.graph.cells
    && (m.jobs[id].verified ==> m.graph.cells[m.jobs[id].cellId].verificationPassed)
  }

  predicate Delivered(m: Memory, cellId: Id) {
    exists id | id in m.jobs :: WorksOn(m, id, cellId) && m.jobs[id].promoted
  }

  predicate PaidFor(m: Memory, id: Id)
    requires id in m.jobs
  {
    m.graph.IsClosed(m.jobs[id].cellId) ==> Delivered(m, m.jobs[id].cellId)
  }

  predicate AttackedAt(m: Memory, cellId: Id)
    requires cellId in m.graph.cells
  {
    m.graph.cells[cellId].leaf == Some(false) ==> exists id | id in m.jobs :: WorksOn(m, id, cellId)
  }

  ghost predicate AllStand(m: Memory) {
    forall id {:trigger Stands(m, id)} | id in m.jobs :: Stands(m, id)
  }

  /** At most one verified job a Cell. */
  predicate OneEach(m: Memory) {
    forall i, j | i in m.jobs && j in m.jobs && m.jobs[i].verified && m.jobs[j].verified
                  && m.jobs[i].cellId == m.jobs[j].cellId :: i == j
  }

  ghost predicate AllPaid(m: Memory) {
    forall id {:trigger PaidFor(m, id)} | id in m.jobs :: PaidFor(m, id)
  }

  ghost predicate AllAttacked(m: Memory) {
    forall c {:trigger AttackedAt(m, c)} | c in m.graph.cells :: AttackedAt(m, c)
  }

  ghost predicate Settled(d: Definition, roles: set<string>, m: Memory) {
    && Closure.ForwardInv(m.graph) && m.graph.def == d
    && AllStand(m) && OneEach(m)
    && (Roleless(d) ==> AllPaid(m))
    && (Configured(d, roles) ==> AllAttacked(m))
  }

  // ---------- calls on the graph ----------

  lemma ActStands(m: Memory, op: Op)
    requires GraphInvariant.Inv(m.graph) && AllStand(m) && !Backward(op)
    ensures AllStand(Acted(m, op))
  {
    forall id | id in m.jobs ensures Stands(Acted(m, op), id) {
      assert Stands(m, id);
      Endorsement.VerificationStands(m.graph, op, m.jobs[id].cellId);
    }
  }

  lemma ActPays(m: Memory, op: Op)
    requires GraphInvariant.Inv(m.graph) && AllStand(m) && AllPaid(m) && !Backward(op)
    requires op.Close? ==> Payable(m, op.id)
    ensures AllPaid(Acted(m, op))
  {
    var n := Acted(m, op);
    forall id | id in n.jobs ensures PaidFor(n, id) {
      var c := m.jobs[id].cellId;
      assert Stands(m, id) && PaidFor(m, id);
      Promises.EveryStepMoves(m.graph, op, c);
      if n.graph.IsClosed(c) {
        if m.graph.IsClosed(c) {
          var k :| k in m.jobs && WorksOn(m, k, c) && m.jobs[k].promoted;
          assert WorksOn(n, k, c);
        } else {
          assert op.Close? && op.id == c;
          var k :| k in m.jobs && m.jobs[k].cellId == c && m.jobs[k].promoted;
          assert WorksOn(n, k, c);
        }
      }
    }
  }

  lemma NewCellsAreUndecided(g: Graph, op: Op, c: Id)
    requires GraphInvariant.Inv(g) && !Backward(op) && c !in g.cells && c in Apply(g, op).graph.cells
    ensures Apply(g, op).graph.cells[c].leaf == None
  {
    if op.Decompose? {
      assert GraphInvariant.ConsistentAt(g, op.id);
      GraphInvariant.DecomposeEffect(g, g.cells[op.id], op.children);
      var i :| 0 <= i < |op.children| && ChildIds(op.children)[i] == c;
    } else if !op.CreateRoot? {
      assert GraphInvariant.ConsistentAt(g, op.id);
      GraphInvariant.CellStepRewrites(g, g.cells[op.id], op);
    }
  }

  lemma OnlyPreReviewDecides(m: Memory, roles: set<string>, op: Op, review: Option<Id>, c: Id)
    requires GraphInvariant.Inv(m.graph) && Configured(m.graph.def, roles) && !Backward(op)
    requires Allowed(m, roles, op, review) && c in m.graph.cells && c in Acted(m, op).graph.cells
    requires Acted(m, op).graph.cells[c].leaf != m.graph.cells[c].leaf
    ensures review.Some? && WorksOn(m, review.value, c)
  {
    Endorsement.VerificationStands(m.graph, op, c);
    assert op.RecordPreReview? && op.id == c;
    assert m.graph.Kind(c) == PreReview;
  }

  lemma ActIsAttacked(m: Memory, roles: set<string>, op: Op, review: Option<Id>)
    requires GraphInvariant.Inv(m.graph) && Configured(m.graph.def, roles) && !Backward(op)
    requires AllAttacked(m) && Allowed(m, roles, op, review)
    ensures AllAttacked(Acted(m, op))
  {
    var n := Acted(m, op);
    forall c | c in n.graph.cells ensures AttackedAt(n, c) {
      if c !in m.graph.cells {
        NewCellsAreUndecided(m.graph, op, c);
      } else {
        assert AttackedAt(m, c);
        if n.graph.cells[c].leaf != m.graph.cells[c].leaf {
          OnlyPreReviewDecides(m, roles, op, review, c);
          assert WorksOn(n, review.value, c);
        } else if n.graph.cells[c].leaf == Some(false) {
          var k :| k in m.jobs && WorksOn(m, k, c);
          assert WorksOn(n, k, c);
        }
      }
    }
  }

  lemma ActSettles(d: Definition, roles: set<string>, m: Memory, op: Op, review: Option<Id>)
    requires Settled(d, roles, m) && !Backward(op) && Allowed(m, roles, op, review)
    ensures Settled(d, roles, Acted(m, op))
  {
    Closure.ForwardStep(m.graph, op);
    Endorsement.DefinitionStays(m.graph, op);
    ActStands(m, op);
    if Roleless(d) { ActPays(m, op); }
    if Configured(d, roles) { ActIsAttacked(m, roles, op, review); }
  }

  // ---------- calls on the jobs ----------

  /** n is m with one job added or changed: nothing is taken back, and the job keeps
      its Cell. */
  ghost predicate Amends(m: Memory, n: Memory, id: Id) {
    && n.graph == m.graph && id in n.jobs && n.jobs == m.jobs[id := n.jobs[id]]
    && n.jobs[id].cellId in m.graph.cells
    && (id in m.jobs ==> n.jobs[id].cellId == m.jobs[id].cellId && (m.jobs[id].promoted ==> n.jobs[id].promoted))
    && (id !in m.jobs && Roleless(m.graph.def) ==> !m.graph.IsClosed(n.jobs[id].cellId))
  }

  lemma StillDelivered(m: Memory, n: Memory, id: Id, c: Id)
    requires Amends(m, n, id) && Delivered(m, c)
    ensures Delivered(n, c)
  {
    var k :| k in m.jobs && WorksOn(m, k, c) && m.jobs[k].promoted;
    assert WorksOn(n, k, c) && n.jobs[k].promoted;
  }

  lemma AmendedIsPaid(m: Memory, n: Memory, id: Id)
    requires Amends(m, n, id) && AllPaid(m) && Roleless(m.graph.def)
    ensures AllPaid(n)
  {
    forall k | k in n.jobs ensures PaidFor(n, k) {
      if k in m.jobs && m.graph.IsClosed(m.jobs[k].cellId) {
        assert PaidFor(m, k);
        StillDelivered(m, n, id, m.jobs[k].cellId);
      }
    }
  }

  lemma AmendedIsAttacked(m: Memory, n: Memory, id: Id)
    requires Amends(m, n, id) && AllAttacked(m)
    ensures AllAttacked(n)
  {
    forall c | c in n.graph.cells ensures AttackedAt(n, c) {
      assert AttackedAt(m, c);
      if n.graph.cells[c].leaf == Some(false) {
        var k :| k in m.jobs && WorksOn(m, k, c);
        assert WorksOn(n, k, c);
      }
    }
  }

  lemma AmendSettles(d: Definition, roles: set<string>, m: Memory, n: Memory, id: Id)
    requires Settled(d, roles, m) && Amends(m, n, id)
    requires n.jobs[id].verified ==> m.graph.cells[n.jobs[id].cellId].verificationPassed
    requires n.jobs[id].verified ==> forall k | k in m.jobs && m.jobs[k].verified && k != id ::
        m.jobs[k].cellId != n.jobs[id].cellId
    ensures Settled(d, roles, n)
  {
    forall k | k in n.jobs ensures Stands(n, k) { assert k in m.jobs ==> Stands(m, k); }
    if Roleless(d) { AmendedIsPaid(m, n, id); }
    if Configured(d, roles) { AmendedIsAttacked(m, n, id); }
  }

  lemma VerificationShows(g: Graph, c: Id, evidence: seq<string>)
    requires GraphInvariant.Inv(g) && Apply(g, Op.RecordVerification(c, true, evidence)).error.None?
    ensures c in g.cells && !g.cells[c].verificationPassed
    ensures var g' := Apply(g, Op.RecordVerification(c, true, evidence)).graph;
            c in g'.cells && g'.cells[c].verificationPassed
  {
    assert GraphInvariant.ConsistentAt(g, c);
  }

  lemma VerifySettles(d: Definition, roles: set<string>, m: Memory, id: Id, candidate: Snapshot, evidence: seq<string>)
    requires Settled(d, roles, m) && id in m.jobs
    requires Apply(m.graph, Op.RecordVerification(m.jobs[id].cellId, true, evidence)).error.None?
    ensures Settled(d, roles, Proved(m, id, candidate, evidence))
  {
    var c := m.jobs[id].cellId;
    var op := Op.RecordVerification(c, true, evidence);
    VerificationShows(m.graph, c, evidence);
    ActSettles(d, roles, m, op, None);
    forall k | k in m.jobs && m.jobs[k].verified ensures m.jobs[k].cellId != c { assert Stands(m, k); }
    AmendSettles(d, roles, Acted(m, op), Proved(m, id, candidate, evidence), id);
  }

  lemma DispatchSettles(d: Definition, roles: set<string>, m: Memory, id: Id, cellId: Id, base: Snapshot)
    requires Settled(d, roles, m) && id !in m.jobs
    requires cellId in m.graph.cells && Role(m.graph, cellId).Some?
    ensures Settled(d, roles, Dispatched(m, id, cellId, base))
  {
    AmendSettles(d, roles, m, Dispatched(m, id, cellId, base), id);
  }

  lemma PaySettles(d: Definition, roles: set<string>, m: Memory, id: Id)
    requires Settled(d, roles, m) && id in m.jobs
    ensures Settled(d, roles, Paid(m, id))
  {
    assert Stands(m, id);
    AmendSettles(d, roles, m, Paid(m, id), id);
  }

  // ---------- every run ----------

  ghost predicate ProcessSettled(s: State, p: nat) {
    Of(s, p).Up? ==> Settled(s.origin.def, s.roles, Of(s, p).memory)
  }

  ghost predicate AllSettled(s: State) {
    && Settled(s.origin.def, s.roles, s.saved)
    && forall p {:trigger ProcessSettled(s, p)} :: ProcessSettled(s, p)
  }

  lemma IdleSettles(s: State, step: Step, m: Memory)
    requires Of(s, step.p) == Up(m, Idle) && Settled(s.origin.def, s.roles, m) && ForwardStep(step)
    ensures ProcessSettled(NextIdle(s, step, m), step.p)
  {
    var d := s.origin.def;
    match step
    case Act(_, op, review) => if Allowed(m, s.roles, op, review) { ActSettles(d, s.roles, m, op, review); }
    case Dispatch(_, id, cellId, _) =>
      if cellId in m.graph.cells && id !in m.jobs && Role(m.graph, cellId).Some? && BaseOf(m, s.files, cellId).Some? {
        DispatchSettles(d, s.roles, m, id, cellId, BaseOf(m, s.files, cellId).value);
      }
    case Verify(_, id, candidate, evidence) =>
      if Verifiable(m, id) && Apply(m.graph, Op.RecordVerification(m.jobs[id].cellId, true, evidence)).error.None? {
        VerifySettles(d, s.roles, m, id, candidate, evidence);
      }
    case _ =>
  }

  lemma OwnSettles(s: State, step: Step)
    requires AllSettled(s) && ForwardStep(step)
    ensures ProcessSettled(Next(s, step), step.p)
  {
    assert ProcessSettled(s, step.p);
    if Of(s, step.p).Up? && !step.Unrelated? && !step.Crash? {
      var m, at := Of(s, step.p).memory, Of(s, step.p).promoter;
      if at.Idle? {
        IdleSettles(s, step, m);
      } else if at.Checked? && at.job.id in m.jobs {
        PaySettles(s.origin.def, s.roles, m, at.job.id);
      }
    }
  }

  lemma StepStaysSettled(s: State, step: Step)
    requires AllSettled(s) && ForwardStep(step)
    ensures AllSettled(Next(s, step))
  {
    var t := Next(s, step);
    NextIsShaped(s, step);
    OwnSettles(s, step);
    OriginStays(s, [step]);
    assert t == After(s, [step]) by { assert [step][..0] == []; }
    assert ProcessSettled(s, step.p);
    forall q {:trigger ProcessSettled(t, q)} ensures ProcessSettled(t, q) {
      assert ProcessSettled(s, q);
      if q != step.p { assert Of(t, q) == Of(s, q); }
    }
  }

  lemma {:induction false} EveryRunSettles(source: Snapshot, runId: string, def: Definition, roles: set<string>,
      steps: seq<Step>)
    requires WellShaped(def) && ForwardSteps(steps)
    ensures AllSettled(After(Start(source, runId, def, roles), steps))
  {
    var s0 := Start(source, runId, def, roles);
    if steps == [] {
      forall p {:trigger ProcessSettled(s0, p)} ensures ProcessSettled(s0, p) {}
    } else {
      EveryRunSettles(source, runId, def, roles, steps[..|steps| - 1]);
      StepStaysSettled(After(s0, steps[..|steps| - 1]), steps[|steps| - 1]);
    }
  }

  /** A memory of the run: the checkpointed one or that of a live process. */
  ghost predicate Remembered(s: State, m: Memory) {
    m == s.saved || exists p :: Of(s, p).Up? && Of(s, p).memory == m
  }

  lemma RememberedIsSettled(source: Snapshot, runId: string, def: Definition, roles: set<string>, steps: seq<Step>,
      m: Memory)
    requires WellShaped(def) && ForwardSteps(steps) && Remembered(After(Start(source, runId, def, roles), steps), m)
    ensures var s := After(Start(source, runId, def, roles), steps); Settled(def, roles, m) && MemoryOk(s, m)
  {
    var s0 := Start(source, runId, def, roles);
    var s := After(s0, steps);
    EveryRunSettles(source, runId, def, roles, steps);
    EveryRunIsChained(source, runId, def, roles, steps);
    OriginStays(s0, steps);
    if m != s.saved {
      var p :| Of(s, p).Up? && Of(s, p).memory == m;
      assert ProcessSettled(s, p) && ProcessOk(s, p);
    }
  }

  /** In a forward run whose workflow gives closed Cells no role, a closed Cell that
      was ever dispatched for is a leaf with nothing missing, and exactly one of its
      jobs is verified: that one was promoted, and its candidate is in the chain. */
  lemma ClosedCellsAreDelivered(source: Snapshot, runId: string, def: Definition, roles: set<string>, steps: seq<Step>,
                                m: Memory, id: Id)
    requires WellShaped(def) && Roleless(def) && ForwardSteps(steps)
    requires Remembered(After(Start(source, runId, def, roles), steps), m)
    requires id in m.jobs && m.graph.IsClosed(m.jobs[id].cellId)
    ensures var s, c := After(Start(source, runId, def, roles), steps), m.jobs[id].cellId;
            && m.graph.cells[c].children == [] && m.graph.cells[c].verificationPassed
            && LeafReadiness(m.graph.cells[c]) == []
            && exists k | k in m.jobs ::
                 && WorksOn(m, k, c) && m.jobs[k].promoted && InChain(s.chain, m.jobs[k])
                 && forall j | j in m.jobs && WorksOn(m, j, c) && m.jobs[j].verified :: j == k
  {
    RememberedIsSettled(source, runId, def, roles, steps, m);
    var s, c := After(Start(source, runId, def, roles), steps), m.jobs[id].cellId;
    assert PaidFor(m, id);
    var k :| k in m.jobs && WorksOn(m, k, c) && m.jobs[k].promoted;
    assert JobOk(s, m, k) && Stands(m, k);
    assert GraphInvariant.ConsistentAt(m.graph, c);
    NothingMissingIsReady(m.graph.cells[c]);
  }

  lemma CompositeHasNoPromotion(s: State, m: Memory, c: Id)
    requires Settled(s.origin.def, s.roles, m) && MemoryOk(s, m)
    requires c in m.graph.cells && m.graph.cells[c].children != []
    ensures Payable(m, c) <==> forall id | id in m.jobs :: !WorksOn(m, id, c)
  {
    assert Closure.ForwardAt(m.graph, c) && GraphInvariant.ConsistentAt(m.graph, c);
    forall id | id in m.jobs && m.jobs[id].cellId == c ensures !m.jobs[id].promoted {
      assert JobOk(s, m, id) && Stands(m, id);
    }
  }

  lemma AcceptedCloseCloses(g: Graph, c: Id)
    requires GraphInvariant.Inv(g) && Apply(g, Op.Close(c)).error == None
    ensures !g.IsClosed(c) && Apply(g, Op.Close(c)).graph.IsClosed(c)
  {
    assert GraphInvariant.ConsistentAt(g, c);
    GraphInvariant.TransitionEnters(g, g.cells[c], "accepted", Closed);
  }

  /** In a forward run a call to close a decomposed Cell that its graph accepts closes
      it exactly if no job was dispatched for the Cell, be it only for its review. */
  lemma CompositeClosesExactly(source: Snapshot, runId: string, def: Definition, roles: set<string>,
                               steps: seq<Step>, p: nat, m: Memory, c: Id)
    requires WellShaped(def) && ForwardSteps(steps)
    requires Of(After(Start(source, runId, def, roles), steps), p) == Up(m, Idle)
    requires c in m.graph.cells && m.graph.cells[c].children != [] && Apply(m.graph, Op.Close(c)).error == None
    ensures var t := Next(After(Start(source, runId, def, roles), steps), Act(p, Op.Close(c), None));
            && Of(t, p).Up?
            && (Of(t, p).memory.graph.IsClosed(c) <==> forall id | id in m.jobs :: !WorksOn(m, id, c))
  {
    var s := After(Start(source, runId, def, roles), steps);
    assert Remembered(s, m);
    RememberedIsSettled(source, runId, def, roles, steps, m);
    OriginStays(Start(source, runId, def, roles), steps);
    CompositeHasNoPromotion(s, m, c);
    AcceptedCloseCloses(m.graph, c);
  }

  /** In such a run a composite Cell never closes once any job was dispatched for it,
      be it only for its review: close wants a promoted job, and a composite has none. */
  lemma DispatchedCompositesStayOpen(source: Snapshot, runId: string, def: Definition, roles: set<string>,
                                     steps: seq<Step>, m: Memory, id: Id)
    requires WellShaped(def) && Roleless(def) && ForwardSteps(steps)
    requires Remembered(After(Start(source, runId, def, roles), steps), m)
    requires id in m.jobs && m.jobs[id].cellId in m.graph.cells && m.graph.cells[m.jobs[id].cellId].children != []
    ensures !m.graph.IsClosed(m.jobs[id].cellId)
  {
    if m.graph.IsClosed(m.jobs[id].cellId) {
      ClosedCellsAreDelivered(source, runId, def, roles, steps, m, id);
    }
  }

  /** So where the pre-review role is configured, no Cell that was decomposed closes. */
  lemma ReviewedCompositesStayOpen(source: Snapshot, runId: string, def: Definition, roles: set<string>,
                                   steps: seq<Step>, m: Memory, c: Id)
    requires WellShaped(def) && Roleless(def) && Configured(def, roles) && ForwardSteps(steps)
    requires Remembered(After(Start(source, runId, def, roles), steps), m)
    requires c in m.graph.cells && m.graph.cells[c].children != []
    ensures !m.graph.IsClosed(c)
  {
    RememberedIsSettled(source, runId, def, roles, steps, m);
    assert GraphInvariant.ConsistentAt(m.graph, c) && AttackedAt(m, c);
    if m.graph.IsClosed(c) {
      var k :| k in m.jobs && WorksOn(m, k, c);
      DispatchedCompositesStayOpen(source, runId, def, roles, steps, m, k);
    }
  }

  /** The standard workflow gives closed Cells no role, and its pre-review is made by
      one role. */
  lemma StandardIsRoleless(roles: set<string>)
    ensures WellShaped(STANDARD) && Roleless(STANDARD)
    ensures Configured(STANDARD, roles) <==> "decomposition_adversary" in roles
  {
    StandardIsWellShaped();
    forall p | p in STANDARD.phases && STANDARD.phases[p].kind == Closed ensures STANDARD.phases[p].role == None {
      KindDecides(p, Closed);
    }
    forall p | p in STANDARD.phases && STANDARD.phases[p].kind == PreReview
      ensures STANDARD.phases[p].role == Some("decomposition_adversary")
    {
      KindDecides(p, PreReview);
    }
    assert STANDARD.phases["decomposition_attack"].kind == PreReview;
  }
}
