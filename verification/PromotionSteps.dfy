/** Any number of processes over one candidate pointer and one log. Each holds a
    Cell graph and its jobs in memory, dispatches, verifies, reviews, promotes and
    closes, and may crash and open again from the last checkpoint. */
module PromotionSteps {
  import opened Basics
  import opened Workflow
  import opened Promotion
  import GraphInvariant
  import Endorsement

  /** A completed dispatch; its base is fixed when its workspace is made. */
  datatype Job = Job(
    id: Id, cellId: Id, revision: nat, role: string, base: Snapshot,
    candidate: Option<Snapshot>, verified: bool, promoted: bool)

  datatype Memory = Memory(graph: Graph, jobs: map<Id, Job>)

  /** Where a process is in promote_job. */
  datatype Promoter = Idle | Checked(job: Job) | Swapped(job: Job) | Refused(job: Job)

  datatype Process = Down | Up(memory: Memory, promoter: Promoter)

  /** A promotion: the job, and the graph it was checked against. */
  datatype Exchange = Exchange(graph: Graph, job: Job)

  /** roles: the configured ones. saved: what the last checkpoint holds. chain: the
      promotions whose swap succeeded, in that order. */
  datatype State = State(
    origin: Graph, roles: set<string>, files: Files, log: Log, saved: Memory,
    processes: map<nat, Process>, chain: seq<Exchange>)

  datatype Step =
    | Open(p: nat)
    | Act(p: nat, op: Op, review: Option<Id>)
    | Dispatch(p: nat, id: Id, cellId: Id, completes: bool)
    | Verify(p: nat, id: Id, candidate: Snapshot, evidence: seq<string>)
    | Check(p: nat, id: Id)
    | Swap(p: nat)
    | Record(p: nat)
    | Save(p: nat)
    | Unrelated(p: nat, name: string)
    | Crash(p: nat)

  function Start(source: Snapshot, runId: string, def: Definition, roles: set<string>): State {
    var origin := Fresh(runId, def);
    State(origin, roles, Files({source}, Some(source), map[]), [], Memory(origin, map[]), map[], [])
  }

  function Of(s: State, p: nat): Process {
    if p in s.processes then s.processes[p] else Down
  }

  function Become(s: State, p: nat, m: Memory, at: Promoter): State {
    s.(processes := s.processes[p := Up(m, at)])
  }

  // ---------- what the calls check ----------

  function Candidates(m: Memory, cellId: Id): set<Id> {
    set id | id in m.jobs && m.jobs[id].cellId == cellId && m.jobs[id].verified && Truthy(m.jobs[id].candidate)
  }

  /** What a dispatch starts from: the candidate itself for the post-review of a
      leaf, the pointer otherwise. */
  ghost function BaseOf(m: Memory, f: Files, cellId: Id): Option<Snapshot>
    requires cellId in m.graph.cells
  {
    if m.graph.Kind(cellId) == PostReview && m.graph.cells[cellId].children == [] then
      if id :| id in m.jobs && Candidates(m, cellId) == {id} then m.jobs[id].candidate else None
    else Current(f)
  }

  /** A review under a configured role brings a job of that role for the Cell as it
      now stands; under any other role it brings none. */
  predicate Reviewed(m: Memory, roles: set<string>, cellId: Id, review: Option<Id>) {
    && cellId in m.graph.cells && Role(m.graph, cellId).Some?
    && var role := Role(m.graph, cellId).value;
       if role !in roles then review.None?
       else
         && review.Some? && review.value in m.jobs
         && m.jobs[review.value].cellId == cellId && m.jobs[review.value].role == role
         && m.jobs[review.value].revision == m.graph.cells[cellId].revision
  }

  /** A Cell that was dispatched for closes only after one of its jobs was promoted. */
  predicate Payable(m: Memory, cellId: Id) {
    (exists id | id in m.jobs :: m.jobs[id].cellId == cellId && m.jobs[id].promoted)
    || forall id | id in m.jobs :: m.jobs[id].cellId != cellId
  }

  predicate Allowed(m: Memory, roles: set<string>, op: Op, review: Option<Id>) {
    && (op.RecordPreReview? || op.RecordPostReview? ==> Reviewed(m, roles, op.id, review))
    && (op.Close? ==> Payable(m, op.id))
  }

  predicate Verifiable(m: Memory, id: Id) {
    && id in m.jobs && !m.jobs[id].verified && m.jobs[id].cellId in m.graph.cells
    && Role(m.graph, m.jobs[id].cellId) == Some(m.jobs[id].role)
  }

  /** What promote_job checks in the memory of its process. */
  predicate Promotable(g: Graph, j: Job) {
    && j.verified && Truthy(j.candidate) && j.cellId in g.cells
    && g.cells[j.cellId].postReviewAccepted && !HasBlockingClaim(g.cells[j.cellId])
  }

  // ---------- steps ----------

  ghost function Acted(m: Memory, op: Op): Memory {
    m.(graph := Apply(m.graph, op).graph)
  }

  function Dispatched(m: Memory, id: Id, cellId: Id, base: Snapshot): Memory
    requires cellId in m.graph.cells && Role(m.graph, cellId).Some?
  {
    m.(jobs := m.jobs[id := Job(id, cellId, m.graph.cells[cellId].revision, Role(m.graph, cellId).value, base,
                                None, false, false)])
  }

  ghost function Proved(m: Memory, id: Id, candidate: Snapshot, evidence: seq<string>): Memory
    requires id in m.jobs
  {
    Memory(Apply(m.graph, Op.RecordVerification(m.jobs[id].cellId, true, evidence)).graph,
           m.jobs[id := m.jobs[id].(candidate := Some(candidate), verified := true)])
  }

  function Paid(m: Memory, id: Id): Memory
    requires id in m.jobs
  {
    m.(jobs := m.jobs[id := m.jobs[id].(promoted := true)])
  }

  /** A step of a process that is up and between two calls. */
  ghost function NextIdle(s: State, step: Step, m: Memory): State {
    match step
    case Act(p, op, review) => if Allowed(m, s.roles, op, review) then Become(s, p, Acted(m, op), Idle) else s
    case Dispatch(p, id, cellId, completes) =>
      if cellId !in m.graph.cells || id in m.jobs then s
      else if Role(m.graph, cellId).None? || Role(m.graph, cellId).value !in s.roles then s
      else if BaseOf(m, s.files, cellId).None? then s
      else
        var base := BaseOf(m, s.files, cellId).value;
        var filed := Preparing(s.files, id, base);
        if filed.error.Some? || !completes then s.(files := filed.files)
        else Become(s, p, Dispatched(m, id, cellId, base), Idle).(files := filed.files)
    case Verify(p, id, candidate, evidence) =>
      if !Verifiable(m, id) || candidate == "" then s
      else
        var files := s.files.(stored := s.files.stored + {candidate});
        if Apply(m.graph, Op.RecordVerification(m.jobs[id].cellId, true, evidence)).error.Some? then s.(files := files)
        else Become(s, p, Proved(m, id, candidate, evidence), Idle).(files := files)
    case Check(p, id) =>
      if id in m.jobs && Promotable(m.graph, m.jobs[id]) then Become(s, p, m, Checked(m.jobs[id])) else s
    case Save(_) => s.(saved := m)
    case _ => s
  }

  /** A step of a process that is in promote_job. */
  function NextPromoting(s: State, step: Step, m: Memory, at: Promoter): State
    requires !at.Idle?
  {
    if step.Swap? && at.Checked? && at.job.id in m.jobs && at.job.candidate.Some? then
      var filed := Promoting(s.files, at.job.candidate.value, at.job.base, true);
      if filed.error.None? then
        Become(s, step.p, Paid(m, at.job.id), Swapped(at.job))
          .(files := filed.files, chain := s.chain + [Exchange(m.graph, at.job)])
      else if filed.error == Some(StaleResult) then Become(s, step.p, m, Refused(at.job))
      else Become(s, step.p, m, Idle)
    else if step.Record? && at.Swapped? && at.job.candidate.Some? then
      Become(s, step.p, m, Idle).(log := Report(s.log, at.job.id, at.job.candidate.value, at.job.base))
    else if step.Record? && at.Refused? then
      Become(s, step.p, m, Idle).(log := s.log + [Noted("promotion.conflict")])
    else s
  }

  ghost function Next(s: State, step: Step): State {
    if step.Unrelated? then s.(log := s.log + [Noted(step.name)])
    else if step.Crash? then s.(processes := s.processes[step.p := Down])
    else
      match Of(s, step.p)
      case Up(m, at) => if at.Idle? then NextIdle(s, step, m) else NextPromoting(s, step, m, at)
      case Down => if step.Open? && Current(s.files).Some? then Become(s, step.p, s.saved, Idle) else s
  }

  ghost function After(s: State, steps: seq<Step>): State {
    if steps == [] then s else Next(After(s, steps[..|steps| - 1]), steps[|steps| - 1])
  }

  lemma RunOne(s: State, steps: seq<Step>, step: Step)
    ensures After(s, steps + [step]) == Next(After(s, steps), step)
  {
    assert (steps + [step])[..|steps|] == steps;
  }

  // ---------- what every state keeps ----------

  /** The graph is one that calls on the graph of the new run lead to. */
  ghost predicate Reached(origin: Graph, g: Graph) {
    exists ops :: g == Workflow.Run(origin, ops)
  }

  ghost predicate InChain(chain: seq<Exchange>, j: Job) {
    exists i | 0 <= i < |chain| :: chain[i].job.id == j.id && chain[i].job.candidate == j.candidate
  }

  ghost predicate JobOk(s: State, m: Memory, id: Id)
    requires id in m.jobs
  {
    var j := m.jobs[id];
    && j.id == id && j.cellId in m.graph.cells
    && id in s.files.workspaces && s.files.workspaces[id] == j.base
    && (j.verified ==> Truthy(j.candidate) && j.candidate.value in s.files.stored)
    && (j.promoted ==> j.verified && InChain(s.chain, j))
  }

  ghost predicate MemoryOk(s: State, m: Memory) {
    && Reached(s.origin, m.graph)
    && forall id {:trigger JobOk(s, m, id)} | id in m.jobs :: JobOk(s, m, id)
  }

  ghost predicate PromoterOk(m: Memory, at: Promoter) {
    && (at.Checked? ==> at.job.id in m.jobs && at.job == m.jobs[at.job.id] && Promotable(m.graph, at.job))
    && (at.Swapped? ==> at.job.candidate.Some?)
  }

  ghost predicate ProcessOk(s: State, p: nat) {
    Of(s, p).Up? ==> MemoryOk(s, Of(s, p).memory) && PromoterOk(Of(s, p).memory, Of(s, p).promoter)
  }

  predicate FilesOk(f: Files) {
    && f.pointer.Some? && f.pointer.value in f.stored
    && forall id | id in f.workspaces :: f.workspaces[id] in f.stored
  }

  /** Where the pointer was after i promotions. */
  function Stage(source: Snapshot, chain: seq<Exchange>, i: nat): Snapshot
    requires i <= |chain|
  {
    if i > 0 && chain[i - 1].job.candidate.Some? then chain[i - 1].job.candidate.value else source
  }

  ghost predicate LinkAt(origin: Graph, source: Snapshot, chain: seq<Exchange>, i: nat)
    requires i < |chain|
  {
    && chain[i].job.base == Stage(source, chain, i)
    && Promotable(chain[i].graph, chain[i].job) && Reached(origin, chain[i].graph)
  }

  ghost predicate Chained(s: State, source: Snapshot) {
    && (forall i | 0 <= i < |s.chain| :: LinkAt(s.origin, source, s.chain, i))
    && s.files.pointer == Some(Stage(source, s.chain, |s.chain|))
  }

  /** The run began with an empty graph of a well-shaped definition. */
  ghost predicate Founded(s: State) {
    s.origin == Fresh(s.origin.runId, s.origin.def) && WellShaped(s.origin.def)
  }

  ghost predicate Kept(s: State, source: Snapshot) {
    && Founded(s) && FilesOk(s.files) && Chained(s, source) && MemoryOk(s, s.saved)
    && forall p {:trigger ProcessOk(s, p)} :: ProcessOk(s, p)
  }

  /** Snapshots, workspaces and promotions are only ever added. */
  ghost predicate Wider(s: State, t: State) {
    && t.origin == s.origin && t.roles == s.roles
    && s.files.stored <= t.files.stored && s.chain <= t.chain
    && forall id | id in s.files.workspaces :: id in t.files.workspaces
        && t.files.workspaces[id] == s.files.workspaces[id]
  }

  ghost predicate OthersStay(s: State, t: State, p: nat) {
    forall q {:trigger Of(t, q)} | q != p :: Of(t, q) == Of(s, q)
  }

  lemma LongerChain(chain: seq<Exchange>, longer: seq<Exchange>, j: Job)
    requires chain <= longer && InChain(chain, j)
    ensures InChain(longer, j)
  {
    var i :| 0 <= i < |chain| && chain[i].job.id == j.id && chain[i].job.candidate == j.candidate;
    assert longer[i] == chain[i];
  }

  lemma MemoryStaysOk(s: State, t: State, m: Memory)
    requires Wider(s, t) && MemoryOk(s, m)
    ensures MemoryOk(t, m)
  {
    forall id | id in m.jobs ensures JobOk(t, m, id) {
      assert JobOk(s, m, id);
      if m.jobs[id].promoted { LongerChain(s.chain, t.chain, m.jobs[id]); }
    }
  }

  lemma StepSettles(s: State, t: State, p: nat, source: Snapshot)
    requires Kept(s, source) && Wider(s, t) && OthersStay(s, t, p)
    requires FilesOk(t.files) && Chained(t, source) && MemoryOk(t, t.saved) && ProcessOk(t, p)
    ensures Kept(t, source)
  {
    forall q {:trigger ProcessOk(t, q)} ensures ProcessOk(t, q) {
      if q != p {
        assert ProcessOk(s, q) && Of(t, q) == Of(s, q);
        if Of(s, q).Up? { MemoryStaysOk(s, t, Of(s, q).memory); }
      }
    }
  }

  lemma StillReached(origin: Graph, g: Graph, op: Op)
    requires Reached(origin, g)
    ensures Reached(origin, Apply(g, op).graph)
  {
    var ops :| g == Workflow.Run(origin, ops);
    assert (ops + [op])[..|ops|] == ops;
    assert Apply(g, op).graph == Workflow.Run(origin, ops + [op]);
  }

  lemma ReachedIsSound(runId: string, def: Definition, g: Graph)
    requires WellShaped(def) && Reached(Fresh(runId, def), g)
    ensures GraphInvariant.Inv(g) && Endorsement.Timely(g) && g.def == def
  {
    var ops :| g == Workflow.Run(Fresh(runId, def), ops);
    GraphInvariant.EveryRunKeepsInv(runId, def, ops);
    Endorsement.EveryRunIsTimely(runId, def, ops);
    Endorsement.EveryRunKeepsDefinition(runId, def, ops);
  }

  // ---------- every step ----------

  lemma JobsStay(s: State, m: Memory, op: Op)
    requires Founded(s) && MemoryOk(s, m)
    ensures MemoryOk(s, Acted(m, op))
  {
    StillReached(s.origin, m.graph, op);
    ReachedIsSound(s.origin.runId, s.origin.def, m.graph);
    GraphInvariant.StepKeepsInv(m.graph, op);
    forall id | id in m.jobs ensures JobOk(s, Acted(m, op), id) { assert JobOk(s, m, id); }
  }

  lemma OneJobOk(s: State, m: Memory, id: Id, j: Job)
    requires MemoryOk(s, m) && j.id == id
    requires JobOk(s, m.(jobs := m.jobs[id := j]), id)
    ensures MemoryOk(s, m.(jobs := m.jobs[id := j]))
  {
    var n := m.(jobs := m.jobs[id := j]);
    forall x | x in n.jobs ensures JobOk(s, n, x) {
      if x != id { assert JobOk(s, m, x); }
    }
  }

  lemma ActKeeps(s: State, step: Step, m: Memory, source: Snapshot)
    requires Kept(s, source) && Of(s, step.p) == Up(m, Idle) && step.Act?
    ensures Kept(NextIdle(s, step, m), source)
  {
    assert ProcessOk(s, step.p);
    JobsStay(s, m, step.op);
    var t := NextIdle(s, step, m);
    MemoryStaysOk(s, t, s.saved);
    MemoryStaysOk(s, t, m);
    MemoryStaysOk(s, t, Acted(m, step.op));
    StepSettles(s, t, step.p, source);
  }

  lemma BasesAreStored(s: State, m: Memory, cellId: Id)
    requires FilesOk(s.files) && MemoryOk(s, m) && cellId in m.graph.cells && BaseOf(m, s.files, cellId).Some?
    ensures BaseOf(m, s.files, cellId).value in s.files.stored
  {
    if m.graph.Kind(cellId) == PostReview && m.graph.cells[cellId].children == [] {
      var id :| id in m.jobs && Candidates(m, cellId) == {id} && m.jobs[id].candidate == BaseOf(m, s.files, cellId);
      assert id in Candidates(m, cellId) && JobOk(s, m, id);
    }
  }

  lemma DispatchKeeps(s: State, step: Step, m: Memory, source: Snapshot)
    requires Kept(s, source) && Of(s, step.p) == Up(m, Idle) && step.Dispatch?
    ensures Kept(NextIdle(s, step, m), source)
  {
    assert ProcessOk(s, step.p);
    var t := NextIdle(s, step, m);
    if t != s {
      var base := BaseOf(m, s.files, step.cellId).value;
      BasesAreStored(s, m, step.cellId);
      assert step.id !in s.files.workspaces && t.files == s.files.(workspaces := s.files.workspaces[step.id := base]);
      MemoryStaysOk(s, t, s.saved);
      MemoryStaysOk(s, t, m);
      if step.completes {
        var n := Dispatched(m, step.id, step.cellId, base);
        assert JobOk(t, n, step.id);
        OneJobOk(t, m, step.id, n.jobs[step.id]);
      }
      StepSettles(s, t, step.p, source);
    }
  }

  lemma VerifyKeeps(s: State, step: Step, m: Memory, source: Snapshot)
    requires Kept(s, source) && Of(s, step.p) == Up(m, Idle) && step.Verify?
    ensures Kept(NextIdle(s, step, m), source)
  {
    assert ProcessOk(s, step.p);
    var t := NextIdle(s, step, m);
    if t != s {
      MemoryStaysOk(s, t, s.saved);
      MemoryStaysOk(s, t, m);
      var op := Op.RecordVerification(m.jobs[step.id].cellId, true, step.evidence);
      if Of(t, step.p) != Of(s, step.p) {
        JobsStay(t, m, op);
        var n := Proved(m, step.id, step.candidate, step.evidence);
        assert JobOk(t, m, step.id);
        assert JobOk(t, Acted(m, op), step.id);
        OneJobOk(t, Acted(m, op), step.id, n.jobs[step.id]);
      }
      StepSettles(s, t, step.p, source);
    }
  }

  lemma RestKeeps(s: State, step: Step, m: Memory, source: Snapshot)
    requires Kept(s, source) && Of(s, step.p) == Up(m, Idle) && (step.Check? || step.Save?)
    ensures Kept(NextIdle(s, step, m), source)
  {
    assert ProcessOk(s, step.p);
    if step.Check? && step.id in m.jobs { assert JobOk(s, m, step.id); }
    var t := NextIdle(s, step, m);
    MemoryStaysOk(s, t, s.saved);
    MemoryStaysOk(s, t, m);
    StepSettles(s, t, step.p, source);
  }

  lemma SwapExtends(s: State, m: Memory, j: Job, source: Snapshot)
    requires Chained(s, source) && Reached(s.origin, m.graph) && Promotable(m.graph, j)
    requires Promoting(s.files, j.candidate.value, j.base, true).error.None?
    ensures var longer := s.chain + [Exchange(m.graph, j)];
            && (forall i | 0 <= i < |longer| :: LinkAt(s.origin, source, longer, i))
            && Stage(source, longer, |longer|) == j.candidate.value
            && InChain(longer, j)
  {
    var longer := s.chain + [Exchange(m.graph, j)];
    forall i | 0 <= i < |longer| ensures LinkAt(s.origin, source, longer, i) {
      if i < |s.chain| { assert LinkAt(s.origin, source, s.chain, i); }
    }
    assert longer[|s.chain|].job == j;
  }

  lemma SwapKeeps(s: State, step: Step, m: Memory, at: Promoter, source: Snapshot)
    requires Kept(s, source) && Of(s, step.p) == Up(m, at) && step.Swap? && !at.Idle?
    ensures Kept(NextPromoting(s, step, m, at), source)
  {
    assert ProcessOk(s, step.p);
    var t := NextPromoting(s, step, m, at);
    if t != s {
      var j := at.job;
      assert JobOk(s, m, j.id);
      if t.chain != s.chain { SwapExtends(s, m, j, source); }
      MemoryStaysOk(s, t, s.saved);
      MemoryStaysOk(s, t, m);
      if t.chain != s.chain {
        assert JobOk(t, m, j.id) && JobOk(t, Paid(m, j.id), j.id);
        OneJobOk(t, m, j.id, Paid(m, j.id).jobs[j.id]);
      }
      StepSettles(s, t, step.p, source);
    }
  }

  lemma RecordKeeps(s: State, step: Step, m: Memory, at: Promoter, source: Snapshot)
    requires Kept(s, source) && Of(s, step.p) == Up(m, at) && !step.Swap? && !at.Idle?
    ensures Kept(NextPromoting(s, step, m, at), source)
  {
    assert ProcessOk(s, step.p);
    var t := NextPromoting(s, step, m, at);
    MemoryStaysOk(s, t, s.saved);
    MemoryStaysOk(s, t, m);
    StepSettles(s, t, step.p, source);
  }

  lemma OtherKeeps(s: State, step: Step, source: Snapshot)
    requires Kept(s, source) && (Of(s, step.p).Down? || step.Unrelated? || step.Crash?)
    ensures Kept(Next(s, step), source)
  {
    assert ProcessOk(s, step.p);
    var t := Next(s, step);
    MemoryStaysOk(s, t, s.saved);
    if Of(t, step.p).Up? { MemoryStaysOk(s, t, Of(t, step.p).memory); }
    StepSettles(s, t, step.p, source);
  }

  lemma StepKeeps(s: State, step: Step, source: Snapshot)
    requires Kept(s, source)
    ensures Kept(Next(s, step), source)
  {
    if Of(s, step.p).Down? || step.Unrelated? || step.Crash? {
      OtherKeeps(s, step, source);
    } else {
      var m, at := Of(s, step.p).memory, Of(s, step.p).promoter;
      if !at.Idle? {
        if step.Swap? { SwapKeeps(s, step, m, at, source); } else { RecordKeeps(s, step, m, at, source); }
      } else {
        match step {
          case Act(_, _, _) => ActKeeps(s, step, m, source);
          case Dispatch(_, _, _, _) => DispatchKeeps(s, step, m, source);
          case Verify(_, _, _, _) => VerifyKeeps(s, step, m, source);
          case Check(_, _) => RestKeeps(s, step, m, source);
          case Save(_) => RestKeeps(s, step, m, source);
          case _ =>
        }
      }
    }
  }

  /** Under any interleaving and any crash: every memory is a graph calls lead to,
      with jobs on the bases their workspaces were made from, and each promotion
      started where the one before it ended. */
  lemma {:induction false} EveryRunIsChained(source: Snapshot, runId: string, def: Definition, roles: set<string>,
                                             steps: seq<Step>)
    requires WellShaped(def)
    ensures Kept(After(Start(source, runId, def, roles), steps), source)
  {
    var s0 := Start(source, runId, def, roles);
    if steps == [] {
      assert s0.saved.graph == Workflow.Run(s0.origin, []);
      forall p {:trigger ProcessOk(s0, p)} ensures ProcessOk(s0, p) {}
    } else {
      EveryRunIsChained(source, runId, def, roles, steps[..|steps| - 1]);
      StepKeeps(After(s0, steps[..|steps| - 1]), steps[|steps| - 1], source);
    }
  }

  // ---------- provenance ----------

  /** The step dispatches the job, from the base its Cell is then due. */
  ghost predicate Dispatches(s: State, step: Step, j: Job) {
    && step.Dispatch? && step.completes && step.id == j.id && step.cellId == j.cellId
    && Of(s, step.p).Up?
    && var m := Of(s, step.p).memory;
       && j.cellId in m.graph.cells && Role(m.graph, j.cellId) == Some(j.role)
       && m.graph.cells[j.cellId].revision == j.revision && BaseOf(m, s.files, j.cellId) == Some(j.base)
       && j.id !in s.files.workspaces
  }

  /** The step records a verification of the job's Cell, with nothing missing. */
  ghost predicate Verifies(s: State, step: Step, j: Job) {
    && step.Verify? && step.id == j.id && j.candidate == Some(step.candidate) && step.evidence != []
    && Of(s, step.p).Up?
    && var m := Of(s, step.p).memory;
       && j.id in m.jobs && m.jobs[j.id] == j.(candidate := m.jobs[j.id].candidate, verified := false,
           promoted := m.jobs[j.id].promoted)
       && j.cellId in m.graph.cells && Role(m.graph, j.cellId) == Some(j.role)
       && m.graph.Kind(j.cellId) == Implementation && LeafReadiness(m.graph.cells[j.cellId]) == []
  }

  ghost predicate DispatchedAt(s0: State, steps: seq<Step>, n: nat, j: Job) {
    n < |steps| && Dispatches(After(s0, steps[..n]), steps[n], j)
  }

  ghost predicate VerifiedAt(s0: State, steps: seq<Step>, n: nat, j: Job) {
    n < |steps| && Verifies(After(s0, steps[..n]), steps[n], j)
  }

  /** Some step of the run dispatched the job and, if it is verified, some step
      verified it. */
  ghost predicate Traced(s0: State, steps: seq<Step>, j: Job) {
    && (exists n: nat :: DispatchedAt(s0, steps, n, j))
    && (j.verified ==> exists n: nat :: VerifiedAt(s0, steps, n, j))
  }

  ghost predicate MemoryTraced(s0: State, steps: seq<Step>, m: Memory) {
    forall id | id in m.jobs :: Traced(s0, steps, m.jobs[id])
  }

  ghost predicate ProcessTraced(s0: State, steps: seq<Step>, s: State, p: nat) {
    Of(s, p).Up? ==> MemoryTraced(s0, steps, Of(s, p).memory)
  }

  ghost predicate AllTraced(s0: State, steps: seq<Step>, s: State) {
    && MemoryTraced(s0, steps, s.saved)
    && (forall p {:trigger ProcessTraced(s0, steps, s, p)} :: ProcessTraced(s0, steps, s, p))
    && forall i | 0 <= i < |s.chain| :: Traced(s0, steps, s.chain[i].job)
  }

  lemma LaterSame(s0: State, steps: seq<Step>, step: Step, n: nat, j: Job)
    ensures DispatchedAt(s0, steps, n, j) ==> DispatchedAt(s0, steps + [step], n, j)
    ensures VerifiedAt(s0, steps, n, j) ==> VerifiedAt(s0, steps + [step], n, j)
  {
    if n < |steps| { assert (steps + [step])[..n] == steps[..n]; }
  }

  lemma StaysTraced(s0: State, steps: seq<Step>, step: Step, j: Job)
    requires Traced(s0, steps, j)
    ensures Traced(s0, steps + [step], j)
  {
    var n: nat :| DispatchedAt(s0, steps, n, j);
    LaterSame(s0, steps, step, n, j);
    if j.verified {
      var k: nat :| VerifiedAt(s0, steps, k, j);
      LaterSame(s0, steps, step, k, j);
    }
  }

  lemma MemoryStaysTraced(s0: State, steps: seq<Step>, step: Step, m: Memory)
    requires MemoryTraced(s0, steps, m)
    ensures MemoryTraced(s0, steps + [step], m)
  {
    forall id | id in m.jobs ensures Traced(s0, steps + [step], m.jobs[id]) {
      StaysTraced(s0, steps, step, m.jobs[id]);
    }
  }

  lemma AllStayTraced(s0: State, steps: seq<Step>, step: Step, s: State)
    requires AllTraced(s0, steps, s)
    ensures AllTraced(s0, steps + [step], s)
  {
    MemoryStaysTraced(s0, steps, step, s.saved);
    forall p {:trigger ProcessTraced(s0, steps + [step], s, p)} ensures ProcessTraced(s0, steps + [step], s, p) {
      assert ProcessTraced(s0, steps, s, p);
      if Of(s, p).Up? { MemoryStaysTraced(s0, steps, step, Of(s, p).memory); }
    }
    forall i | 0 <= i < |s.chain| ensures Traced(s0, steps + [step], s.chain[i].job) {
      StaysTraced(s0, steps, step, s.chain[i].job);
    }
  }

  lemma OneJobTraced(s0: State, steps: seq<Step>, m: Memory, n: Memory, id: Id)
    requires MemoryTraced(s0, steps, m) && id in n.jobs && n.jobs == m.jobs[id := n.jobs[id]]
    requires Traced(s0, steps, n.jobs[id])
    ensures MemoryTraced(s0, steps, n)
  {}

  lemma LastStep(s0: State, steps: seq<Step>, step: Step, j: Job)
    ensures Dispatches(After(s0, steps), step, j) ==> DispatchedAt(s0, steps + [step], |steps|, j)
    ensures Verifies(After(s0, steps), step, j) ==> VerifiedAt(s0, steps + [step], |steps|, j)
  {
    assert (steps + [step])[..|steps|] == steps;
  }

  /** Being promoted and gaining a candidate leave a job's dispatch what it was. */
  lemma SameDispatch(s0: State, steps: seq<Step>, j: Job, k: Job)
    requires k == j.(candidate := k.candidate, verified := k.verified, promoted := k.promoted)
    requires exists n: nat :: DispatchedAt(s0, steps, n, j)
    ensures exists n: nat :: DispatchedAt(s0, steps, n, k)
  {
    var n: nat :| DispatchedAt(s0, steps, n, j);
    assert DispatchedAt(s0, steps, n, k);
  }

  /** What a step leaves alone: other processes, and what others checkpointed or
      promoted. */
  ghost predicate Shaped(s: State, step: Step, t: State) {
    && OthersStay(s, t, step.p)
    && (t.saved == s.saved || (Of(s, step.p).Up? && t.saved == Of(s, step.p).memory))
    && (t.chain == s.chain
        || (Of(s, step.p).Up? && Of(s, step.p).promoter.Checked?
            && t.chain == s.chain + [Exchange(Of(s, step.p).memory.graph, Of(s, step.p).promoter.job)]))
  }

  lemma NextIsShaped(s: State, step: Step)
    ensures Shaped(s, step, Next(s, step))
  {}

  lemma Carried(s0: State, steps: seq<Step>, s: State, step: Step, t: State)
    requires AllTraced(s0, steps, s) && Shaped(s, step, t) && ProcessTraced(s0, steps, t, step.p)
    requires ProcessOk(s, step.p)
    ensures AllTraced(s0, steps, t)
  {
    assert ProcessTraced(s0, steps, s, step.p);
    forall q {:trigger ProcessTraced(s0, steps, t, q)} ensures ProcessTraced(s0, steps, t, q) {
      assert ProcessTraced(s0, steps, s, q);
      if q != step.p { assert Of(t, q) == Of(s, q); }
    }
    ChainCarried(s0, steps, s, step, t);
  }

  lemma CheckedIsTraced(s0: State, steps: seq<Step>, m: Memory, promoter: Promoter)
    requires MemoryTraced(s0, steps, m) && PromoterOk(m, promoter) && promoter.Checked?
    ensures Traced(s0, steps, promoter.job)
  {}

  lemma ChainCarried(s0: State, steps: seq<Step>, s: State, step: Step, t: State)
    requires AllTraced(s0, steps, s) && Shaped(s, step, t) && ProcessTraced(s0, steps, s, step.p)
    requires ProcessOk(s, step.p)
    ensures forall i | 0 <= i < |t.chain| :: Traced(s0, steps, t.chain[i].job)
  {
    if t.chain != s.chain {
      var m, promoter := Of(s, step.p).memory, Of(s, step.p).promoter;
      CheckedIsTraced(s0, steps, m, promoter);
      OneLinkMore(s0, steps, s.chain, Exchange(m.graph, promoter.job));
    }
  }

  lemma OneLinkMore(s0: State, steps: seq<Step>, chain: seq<Exchange>, e: Exchange)
    requires Traced(s0, steps, e.job) && forall i | 0 <= i < |chain| :: Traced(s0, steps, chain[i].job)
    ensures forall i | 0 <= i < |chain + [e]| :: Traced(s0, steps, (chain + [e])[i].job)
  {
    forall i | 0 <= i < |chain + [e]| ensures Traced(s0, steps, (chain + [e])[i].job) {
      if i < |chain| { assert (chain + [e])[i] == chain[i]; }
    }
  }

  lemma DispatchAdds(s: State, step: Step, m: Memory)
    requires step.Dispatch? && Of(s, step.p) == Up(m, Idle) && Of(Next(s, step), step.p) != Of(s, step.p)
    ensures Of(Next(s, step), step.p).Up?
    ensures var n := Of(Next(s, step), step.p).memory;
            step.id in n.jobs && n.jobs == m.jobs[step.id := n.jobs[step.id]] && Dispatches(s, step, n.jobs[step.id])
            && !n.jobs[step.id].verified
  {}

  lemma VerifyMarks(s: State, step: Step, m: Memory)
    requires step.Verify? && Of(s, step.p) == Up(m, Idle) && Of(Next(s, step), step.p) != Of(s, step.p)
    requires step.id in m.jobs ==> m.jobs[step.id].id == step.id
    ensures Of(Next(s, step), step.p).Up? && step.id in m.jobs
    ensures var n := Of(Next(s, step), step.p).memory;
            n.jobs == m.jobs[step.id := m.jobs[step.id].(candidate := Some(step.candidate), verified := true)]
            && Verifies(s, step, n.jobs[step.id])
  {}

  lemma DispatchTraced(s0: State, steps: seq<Step>, step: Step, m: Memory)
    requires var s := After(s0, steps); MemoryTraced(s0, steps + [step], m) && Of(s, step.p) == Up(m, Idle)
    requires step.Dispatch?
    ensures ProcessTraced(s0, steps + [step], Next(After(s0, steps), step), step.p)
  {
    var s := After(s0, steps);
    var t := Next(s, step);
    if Of(t, step.p) != Of(s, step.p) {
      DispatchAdds(s, step, m);
      var n := Of(t, step.p).memory;
      LastStep(s0, steps, step, n.jobs[step.id]);
      OneJobTraced(s0, steps + [step], m, n, step.id);
    }
  }

  lemma VerifyTraced(s0: State, steps: seq<Step>, step: Step, m: Memory)
    requires var s := After(s0, steps); MemoryTraced(s0, steps + [step], m) && Of(s, step.p) == Up(m, Idle)
    requires step.Verify? && (step.id in m.jobs ==> m.jobs[step.id].id == step.id)
    ensures ProcessTraced(s0, steps + [step], Next(After(s0, steps), step), step.p)
  {
    var s := After(s0, steps);
    var t := Next(s, step);
    if Of(t, step.p) != Of(s, step.p) {
      VerifyMarks(s, step, m);
      var n := Of(t, step.p).memory;
      LastStep(s0, steps, step, n.jobs[step.id]);
      SameDispatch(s0, steps + [step], m.jobs[step.id], n.jobs[step.id]);
      OneJobTraced(s0, steps + [step], m, n, step.id);
    }
  }

  lemma PaidIsTraced(s0: State, steps: seq<Step>, m: Memory, id: Id)
    requires MemoryTraced(s0, steps, m) && id in m.jobs
    ensures MemoryTraced(s0, steps, Paid(m, id))
  {
    var j := m.jobs[id];
    var k := j.(promoted := true);
    SameDispatch(s0, steps, j, k);
    if j.verified {
      var n: nat :| VerifiedAt(s0, steps, n, j);
      assert VerifiedAt(s0, steps, n, k);
    }
    OneJobTraced(s0, steps, m, Paid(m, id), id);
  }

  /** The jobs a process remembers after a step that is neither a dispatch nor a
      verification. */
  lemma OwnJobs(s: State, step: Step)
    requires Of(Next(s, step), step.p).Up?
    requires Of(s, step.p).Up? && Of(s, step.p).promoter.Idle? ==> !step.Dispatch? && !step.Verify?
    ensures var n := Of(Next(s, step), step.p).memory;
            if Of(s, step.p).Down? then n == s.saved
            else
              var m, at := Of(s, step.p).memory, Of(s, step.p).promoter;
              n.jobs == m.jobs || (at.Checked? && at.job.id in m.jobs && n == Paid(m, at.job.id))
  {}

  lemma OwnTraced(s0: State, steps: seq<Step>, step: Step)
    requires AllTraced(s0, steps + [step], After(s0, steps)) && ProcessOk(After(s0, steps), step.p)
    ensures ProcessTraced(s0, steps + [step], Next(After(s0, steps), step), step.p)
  {
    var s := After(s0, steps);
    assert ProcessTraced(s0, steps + [step], s, step.p);
    if Of(Next(s, step), step.p).Up? {
      if Of(s, step.p).Up? && Of(s, step.p).promoter.Idle? && step.Dispatch? {
        DispatchTraced(s0, steps, step, Of(s, step.p).memory);
      } else if Of(s, step.p).Up? && Of(s, step.p).promoter.Idle? && step.Verify? {
        var m := Of(s, step.p).memory;
        if step.id in m.jobs { assert JobOk(s, m, step.id); }
        VerifyTraced(s0, steps, step, m);
      } else {
        OwnJobs(s, step);
        if Of(s, step.p).Up? && Of(s, step.p).promoter.Checked? {
          PaidIsTraced(s0, steps + [step], Of(s, step.p).memory, Of(s, step.p).promoter.job.id);
        }
      }
    }
  }

  /** In every run every job in any memory and in the chain was dispatched, and if
      it is verified then verified, by some step of the run. */
  lemma {:induction false} EveryJobIsTraced(source: Snapshot, runId: string, def: Definition, roles: set<string>,
                                            steps: seq<Step>)
    requires WellShaped(def)
    ensures var s0 := Start(source, runId, def, roles); AllTraced(s0, steps, After(s0, steps))
  {
    var s0 := Start(source, runId, def, roles);
    if steps == [] {
      forall p {:trigger ProcessTraced(s0, [], s0, p)} ensures ProcessTraced(s0, [], s0, p) {}
    } else {
      var n := |steps| - 1;
      var fewer, step := steps[..n], steps[n];
      EveryJobIsTraced(source, runId, def, roles, fewer);
      EveryRunIsChained(source, runId, def, roles, fewer);
      assert steps == fewer + [step];
      var s := After(s0, fewer);
      assert ProcessOk(s, step.p);
      AllStayTraced(s0, fewer, step, s);
      OwnTraced(s0, fewer, step);
      NextIsShaped(s, step);
      Carried(s0, steps, s, step, Next(s, step));
    }
  }

  /** The i-th promotion of a run: what stands behind it. */
  ghost predicate Provenance(s0: State, steps: seq<Step>, e: Exchange) {
    var g, j := e.graph, e.job;
    && Promotable(g, j) && Reached(s0.origin, g)
    && g.Kind(j.cellId) in {PostReview, Closed}
    && (g.cells[j.cellId].verificationPassed || g.cells[j.cellId].integrationPassed)
    && (g.cells[j.cellId].verificationPassed ==> LeafReadiness(g.cells[j.cellId]) == [])
    && (exists n: nat :: DispatchedAt(s0, steps, n, j))
    && (exists n: nat :: VerifiedAt(s0, steps, n, j))
  }

  /** Under any interleaving and any crash the pointer is the source or the candidate
      of the last promotion. The Cell of every promoted job is past an accepted
      post-review with its verification or integration standing and no verified
      claim open; some step of the run recorded that verification on this very
      candidate, with nothing missing; and each promotion started where the one
      before it ended. */
  lemma PointerHasProvenance(source: Snapshot, runId: string, def: Definition, roles: set<string>, steps: seq<Step>)
    requires WellShaped(def)
    ensures var s0 := Start(source, runId, def, roles);
            var s := After(s0, steps);
            && s.files.pointer == (if s.chain == [] then Some(source) else s.chain[|s.chain| - 1].job.candidate)
            && (forall i | 0 <= i < |s.chain| :: Provenance(s0, steps, s.chain[i]))
            && (forall i {:trigger s.chain[i].job.base} | 0 < i < |s.chain| ::
                  Some(s.chain[i].job.base) == s.chain[i - 1].job.candidate)
  {
    var s0 := Start(source, runId, def, roles);
    var s := After(s0, steps);
    EveryRunIsChained(source, runId, def, roles, steps);
    EveryJobIsTraced(source, runId, def, roles, steps);
    OriginStays(s0, steps);
    var chain, pointer := s.chain, s.files.pointer;
    LinksJoin(s, source);
    assert pointer == if chain == [] then Some(source) else chain[|chain| - 1].job.candidate;
    forall i | 0 <= i < |chain| ensures Provenance(s0, steps, chain[i]) {
      assert LinkAt(s.origin, source, chain, i);
      PromotedStands(runId, def, chain[i].graph, chain[i].job);
    }
  }

  /** Each promotion started where the last one ended, and the pointer is where the last
      one ended. */
  lemma LinksJoin(s: State, source: Snapshot)
    requires Chained(s, source)
    ensures s.chain == [] ==> s.files.pointer == Some(source)
    ensures s.chain != [] ==> s.files.pointer == s.chain[|s.chain| - 1].job.candidate
    ensures forall i {:trigger s.chain[i].job.base} | 0 < i < |s.chain| ::
              Some(s.chain[i].job.base) == s.chain[i - 1].job.candidate
  {
    forall i {:trigger s.chain[i].job.base} | 0 < i < |s.chain|
      ensures Some(s.chain[i].job.base) == s.chain[i - 1].job.candidate {
      assert LinkAt(s.origin, source, s.chain, i) && LinkAt(s.origin, source, s.chain, i - 1);
    }
    if s.chain != [] { assert LinkAt(s.origin, source, s.chain, |s.chain| - 1); }
  }

  /** The Cell of a promoted job, in the graph it was promoted under. */
  lemma PromotedStands(runId: string, def: Definition, g: Graph, j: Job)
    requires WellShaped(def) && Reached(Fresh(runId, def), g) && Promotable(g, j)
    ensures g.Kind(j.cellId) in {PostReview, Closed}
    ensures g.cells[j.cellId].verificationPassed || g.cells[j.cellId].integrationPassed
    ensures g.cells[j.cellId].verificationPassed ==> LeafReadiness(g.cells[j.cellId]) == []
  {
    ReachedIsSound(runId, def, g);
    assert Endorsement.TimelyAt(g, j.cellId) && GraphInvariant.ConsistentAt(g, j.cellId);
    NothingMissingIsReady(g.cells[j.cellId]);
  }

  lemma {:induction false} OriginStays(s0: State, steps: seq<Step>)
    ensures After(s0, steps).origin == s0.origin && After(s0, steps).roles == s0.roles
  {
    if steps != [] { OriginStays(s0, steps[..|steps| - 1]); }
  }
}
