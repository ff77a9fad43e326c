/** The run as an event log with full checkpoints: every lifecycle call updates
    the graph, then appends its event and a checkpoint of the whole state.
    Recovery rebuilds the run from the last checkpoint a log prefix holds. */
module System {
  import opened Basics
  import opened Workflow
  import opened GraphInvariant
  import opened RunGraphObject

  // ------------------------------------------------------------ saved graphs

  datatype SavedGraph = SavedGraph(runId: string, version: int, cells: map<Id, Cell>, events: seq<GraphEvent>)

  function ToDict(g: Graph): SavedGraph {
    SavedGraph(g.runId, g.def.version, g.cells, g.events)
  }

  /** The graph a saved form stands for. */
  function GraphOf(def: Definition, saved: SavedGraph): Graph {
    Graph(saved.runId, def, saved.cells, saved.events)
  }

  predicate KnownPhases(def: Definition, cells: map<Id, Cell>) {
    forall id | id in cells :: cells[id].cellId == id && cells[id].phase in def.phases
  }

  predicate KnownRelatives(cells: map<Id, Cell>) {
    forall id | id in cells ::
      && (cells[id].parent.Some? ==> cells[id].parent.value in cells)
      && forall k | k in cells[id].children :: k in cells
  }

  /** from_dict: rebuild and check, Cell by Cell, then relative by relative. */
  method FromDict(saved: SavedGraph, def: Definition, runId: string) returns (r: Option<Graph>)
    ensures r.Some? <==>
      && saved.runId == runId && saved.version == def.version
      && KnownPhases(def, saved.cells) && KnownRelatives(saved.cells)
    ensures r.Some? ==> r.value.def == def && ToDict(r.value) == saved
  {
    if saved.runId != runId || saved.version != def.version { return None; }
    var cells: map<Id, Cell> := map[];
    var rest := saved.cells.Keys;
    while rest != {}
      invariant rest <= saved.cells.Keys && cells.Keys == saved.cells.Keys - rest
      invariant forall id | id in cells :: cells[id] == saved.cells[id]
      invariant KnownPhases(def, cells)
    {
      var id :| id in rest;
      var row := saved.cells[id];
      if row.cellId != id || row.phase !in def.phases { return None; }
      cells := cells[id := row];
      rest := rest - {id};
    }
    assert cells == saved.cells;
    if !KnownRelatives(cells) { return None; }
    r := Some(Graph(runId, def, cells, saved.events));
  }

  ghost predicate Restores(saved: SavedGraph, def: Definition, g: Graph) {
    ToDict(g) == saved && g.def == def && KnownPhases(def, saved.cells) && KnownRelatives(saved.cells)
  }

  /** Every graph of every run survives being saved, and only as itself. */
  lemma SavedGraphRestores(g: Graph, other: Graph)
    requires Inv(g)
    ensures Restores(ToDict(g), g.def, g)
    ensures Restores(ToDict(g), g.def, other) ==> other == g
  {
    forall id | id in g.cells
      ensures g.cells[id].cellId == id && g.cells[id].phase in g.def.phases
      ensures g.cells[id].parent.Some? ==> g.cells[id].parent.value in g.cells
      ensures forall k | k in g.cells[id].children :: k in g.cells
    {
      assert ConsistentAt(g, id) && Placed(g, id) && Split(g, id);
    }
  }

  // ----------------------------------------------------------------- records

  datatype RunStatus = Active | Paused | Parked | Halted

  datatype Intervention = Intervention(authorization: string, action: string, reason: string)

  datatype Topic =
    | CellCreated | ContractAccepted | TestsFrozen | PlanRecorded | PreReviewed | CellSplit
    | VerificationRecorded | IntegrationStarted | IntegrationRecorded | PostReviewed | CellClosed

  /** What an event's id is a digest of. */
  datatype Key =
    | Creation
    | OnCell(topic: Topic, cellId: Id, revision: nat)
    | AtLength(to: RunStatus, length: nat)
    | OfOwner(authorization: string, count: nat)
    | OfTail(name: string)

  /** What an event carries beside the Cell and revision its key names. */
  datatype Payload =
    | RunOpened
    | Made(parent: Option<Id>, phase: string, refs: References, obligations: seq<Id>, scope: seq<string>,
           owner: Option<string>)
    | PhaseLeft(from: string, to: string)
    | Tested(basis: TestBasis)
    | Planned(planDigest: string, responsibilities: map<Id, string>)
    | Reviewed(leaf: bool, seams: seq<string>)
    | WithChildren(children: seq<Id>)
    | WithEvidence(evidence: seq<string>)
    | InPhase(phase: string)
    | StatusChanged(status: RunStatus, reason: string)
    | Intervened(intervention: Intervention)
    | TailQuarantined

  datatype SavedState = SavedState(graph: SavedGraph, status: RunStatus, interventions: seq<Intervention>)

  /** A checkpoint's id is derived from the id of the event it follows. */
  datatype Record = Event(key: Key, payload: Payload) | Checkpoint(key: Key, state: SavedState)

  predicate SameId(a: Record, b: Record) {
    a.key == b.key && (a.Event? <==> b.Event?)
  }

  predicate Taken(log: seq<Record>, r: Record) {
    exists q | q in log :: SameId(q, r)
  }

  /** The ledger takes a record once; its id with other content is refused. */
  function Write(log: seq<Record>, r: Record): Option<seq<Record>> {
    if r in log then Some(log) else if Taken(log, r) then None else Some(log + [r])
  }

  // ----------------------------------------------------------------- the run

  datatype Sys = Sys(
    graph: Graph, roles: set<string>, status: RunStatus, interventions: seq<Intervention>, log: seq<Record>)

  datatype SysOutcome = SysOutcome(sys: Sys, error: Option<Error>)

  function Save(s: Sys): SavedState {
    SavedState(ToDict(s.graph), s.status, s.interventions)
  }

  /** An event and a checkpoint of everything. A refused record leaves in memory
      what the call has already changed. */
  function Append(s: Sys, key: Key, payload: Payload): SysOutcome {
    match Write(s.log, Event(key, payload))
    case None => SysOutcome(s, Some(IdempotencyError))
    case Some(noted) =>
      match Write(noted, Checkpoint(key, Save(s)))
      case None => SysOutcome(s.(log := noted), Some(IdempotencyError))
      case Some(saved) => SysOutcome(s.(log := saved), None)
  }

  function Created(g: Graph, roles: set<string>): Sys {
    var s := Sys(g, roles, Active, [], []);
    s.(log := [Event(Creation, RunOpened), Checkpoint(Creation, Save(s))])
  }

  /** A review phase must have a role; a configured role wants a job, which this
      call does not bring. */
  function ReviewRefusal(s: Sys, id: Id): Option<Error> {
    if id !in s.graph.cells || Role(s.graph, id) == None then Some(SchemaError)
    else if Role(s.graph, id).value in s.roles then Some(AuthorityError)
    else None
  }

  // --------------------------------------------------------- a call's record

  function RevisionIn(g: Graph, id: Id): nat {
    if id in g.cells then g.cells[id].revision else 0
  }

  function PhaseIn(g: Graph, id: Id): string {
    if id in g.cells then g.cells[id].phase else ""
  }

  function ChildrenIn(g: Graph, id: Id): seq<Id> {
    if id in g.cells then g.cells[id].children else []
  }

  function TopicOf(op: Op): Topic {
    match op
    case AcceptContract(_) => ContractAccepted
    case FreezeTests(_, _) => Topic.TestsFrozen
    case RecordPlan(_, _, _) => PlanRecorded
    case RecordPreReview(_, _, _, _) => PreReviewed
    case Decompose(_, _) => CellSplit
    case RecordVerification(_, _, _) => VerificationRecorded
    case BeginIntegration(_) => IntegrationStarted
    case RecordIntegration(_, _, _) => IntegrationRecorded
    case RecordPostReview(_, _, _) => PostReviewed
    case Close(_) => CellClosed
    case _ => CellCreated
  }

  /** The id of a lifecycle call's event: topic, Cell and revision afterwards. */
  function KeyOf(op: Op, after: Graph): Key
    requires Offered(op)
  {
    OnCell(TopicOf(op), op.id, RevisionIn(after, op.id))
  }

  function ContentOf(op: Op, before: Graph, after: Graph): Payload
    requires Offered(op)
  {
    match op
    case CreateRoot(_, refs, obligations, _) => Made(None, after.def.initial, refs, obligations, [], None)
    case AcceptContract(id) => PhaseLeft(PhaseIn(before, id), PhaseIn(after, id))
    case FreezeTests(_, basis) => Tested(basis)
    case RecordPlan(_, planDigest, responsibilities) => Planned(planDigest, responsibilities)
    case RecordPreReview(_, _, leaf, seams) => Reviewed(leaf, seams)
    case Decompose(id, _) => WithChildren(ChildrenIn(after, id))
    case RecordVerification(_, _, evidence) => WithEvidence(evidence)
    case BeginIntegration(id) => WithChildren(ChildrenIn(after, id))
    case RecordIntegration(_, _, evidence) => WithEvidence(evidence)
    case RecordPostReview(_, _, evidence) => WithEvidence(evidence)
    case Close(id) => InPhase(PhaseIn(after, id))
  }

  function BirthOf(g: Graph, id: Id): Payload {
    if id in g.cells then
      var c := g.cells[id];
      Made(c.parent, c.phase, c.refs, c.obligations, c.scope, c.owner)
    else RunOpened
  }

  // ------------------------------------------------------------------- calls

  /** The lifecycle calls the system offers; all of them move forward. */
  predicate Offered(op: Op) {
    op.CreateRoot? || op.AcceptContract? || op.FreezeTests? || op.RecordPlan? || op.RecordPreReview?
    || op.Decompose? || op.RecordVerification? || op.BeginIntegration? || op.RecordIntegration?
    || op.RecordPostReview? || op.Close?
  }

  /** A call on the graph, recorded when the graph accepts it. */
  ghost function Perform(s: Sys, op: Op): SysOutcome
    requires Offered(op)
  {
    if s.status != Active then SysOutcome(s, Some(TransitionError))
    else
      var o := Apply(s.graph, op);
      var s' := s.(graph := o.graph);
      if o.error.Some? then SysOutcome(s', o.error)
      else Append(s', KeyOf(op, o.graph), ContentOf(op, s.graph, o.graph))
  }

  ghost function PerformReview(s: Sys, op: Op): SysOutcome
    requires op.RecordPreReview? || op.RecordPostReview?
  {
    if s.status != Active then SysOutcome(s, Some(TransitionError))
    else if ReviewRefusal(s, op.id).Some? then SysOutcome(s, ReviewRefusal(s, op.id))
    else Perform(s, op)
  }

  /** One event and checkpoint per child, up to the first refusal. */
  function AppendBirths(s: Sys, ids: seq<Id>): SysOutcome {
    if ids == [] then SysOutcome(s, None)
    else
      var n := |ids| - 1;
      var o := AppendBirths(s, ids[..n]);
      if o.error.Some? then o
      else Append(o.sys, OnCell(CellCreated, ids[n], RevisionIn(s.graph, ids[n])), BirthOf(s.graph, ids[n]))
  }

  ghost function PerformDecompose(s: Sys, id: Id, children: seq<ChildSpec>): SysOutcome {
    if s.status != Active then SysOutcome(s, Some(TransitionError))
    else
      var op := Op.Decompose(id, children);
      var o := Apply(s.graph, op);
      var s' := s.(graph := o.graph);
      if o.error.Some? then SysOutcome(s', o.error)
      else
        var born := AppendBirths(s', ChildrenIn(o.graph, id));
        if born.error.Some? then born
        else Append(born.sys, KeyOf(op, o.graph), ContentOf(op, s.graph, o.graph))
  }

  ghost function PerformIntegration(s: Sys, id: Id, passed: bool, evidence: seq<string>): SysOutcome {
    if s.status != Active then SysOutcome(s, Some(TransitionError))
    else
      var begun := if id in s.graph.cells && s.graph.Kind(id) == Children
                   then Perform(s, Op.BeginIntegration(id))
                   else SysOutcome(s, None);
      if begun.error.Some? then begun
      else Perform(begun.sys, Op.RecordIntegration(id, passed, evidence))
  }

  function ChangeStatus(s: Sys, to: RunStatus, reason: string): SysOutcome {
    Append(s.(status := to), AtLength(to, |s.log|), StatusChanged(to, reason))
  }

  function ParkRun(s: Sys, reason: string): SysOutcome {
    if reason == "" then SysOutcome(s, Some(SchemaError))
    else if s.status != Active then SysOutcome(s, Some(TransitionError))
    else ChangeStatus(s, Parked, reason)
  }

  function PauseRun(s: Sys, reason: string): SysOutcome {
    if reason == "" then SysOutcome(s, Some(SchemaError))
    else if s.status != Active then SysOutcome(s, Some(TransitionError))
    else ChangeStatus(s, Paused, reason)
  }

  function HaltRun(s: Sys, reason: string): SysOutcome {
    if reason == "" then SysOutcome(s, Some(SchemaError))
    else if s.status == Halted then SysOutcome(s, Some(TransitionError))
    else ChangeStatus(s, Halted, reason)
  }

  function Intervene(s: Sys, i: Intervention): SysOutcome {
    if i.authorization == "" then SysOutcome(s, Some(AuthorityError))
    else if i.action == "" || i.reason == "" then SysOutcome(s, Some(SchemaError))
    else
      var s' := s.(interventions := s.interventions + [i]);
      Append(s', OfOwner(i.authorization, |s'.interventions|), Intervened(i))
  }

  predicate MayResume(s: Sys, authorization: string) {
    exists n :: 0 <= n < |s.interventions|
                && s.interventions[n].authorization == authorization && s.interventions[n].action == "continue"
  }

  function ResumeRun(s: Sys, authorization: string): SysOutcome {
    if authorization == "" then SysOutcome(s, Some(AuthorityError))
    else if s.status != Paused && s.status != Parked then SysOutcome(s, Some(TransitionError))
    else if !MayResume(s, authorization) then SysOutcome(s, Some(AuthorityError))
    else ChangeStatus(s, Active, authorization)
  }

  /** TailOp is what opening does first after it cut off a partial record. */
  datatype SysOp =
    | Lifecycle(op: Op)
    | ParkOp(reason: string) | PauseOp(reason: string) | HaltOp(reason: string)
    | InterveneOp(intervention: Intervention)
    | ResumeOp(authorization: string)
    | TailOp(name: string)

  ghost function SysApply(s: Sys, call: SysOp): SysOutcome {
    match call
    case ParkOp(reason) => ParkRun(s, reason)
    case PauseOp(reason) => PauseRun(s, reason)
    case HaltOp(reason) => HaltRun(s, reason)
    case InterveneOp(i) => Intervene(s, i)
    case ResumeOp(a) => ResumeRun(s, a)
    case TailOp(name) => Append(s, OfTail(name), TailQuarantined)
    case Lifecycle(op) =>
      if op.RecordPreReview? || op.RecordPostReview? then PerformReview(s, op)
      else if op.Decompose? then PerformDecompose(s, op.id, op.children)
      else if op.RecordIntegration? then PerformIntegration(s, op.id, op.passed, op.evidence)
      else if Offered(op) then Perform(s, op)
      else SysOutcome(s, Some(SchemaError))
  }

  ghost function SysRun(s: Sys, calls: seq<SysOp>): Sys {
    if calls == [] then s else SysApply(SysRun(s, calls[..|calls| - 1]), calls[|calls| - 1]).sys
  }

  // --------------------------------------------------------------- the object

  class LoopstrapSystem {
    const graph: RunGraph
    const roles: set<string>
    var status: RunStatus
    var interventions: seq<Intervention>
    var log: seq<Record>

    constructor (runId: string, def: Definition, roles: set<string>)
      ensures Value() == Created(Fresh(runId, def), roles)
      ensures graph.Named() && fresh(graph)
    {
      var g := new RunGraph(runId, def);
      this.graph, this.roles, status, interventions := g, roles, Active, [];
      log := [Event(Creation, RunOpened),
              Checkpoint(Creation, SavedState(ToDict(Fresh(runId, def)), Active, []))];
    }

    function Value(): Sys
      reads this, graph
    {
      Sys(graph.State(), roles, status, interventions, log)
    }

    /** One append to the ledger: look for the id among all records first. */
    method WriteRecord(record: Record) returns (ok: bool)
      modifies this`log
      ensures ok <==> Write(old(log), record).Some?
      ensures log == if ok then Write(old(log), record).value else old(log)
      ensures Value() == old(Value()).(log := log)
    {
      var matching: seq<Record> := [];
      for n := 0 to |log|
        invariant log == old(log)
        invariant matching == [] <==> !Taken(log[..n], record)
        invariant record in matching <==> record in log[..n]
      {
        assert log[..n + 1] == log[..n] + [log[n]];
        if SameId(log[n], record) { matching := matching + [log[n]]; }
      }
      assert log[..|log|] == log;
      ok := matching == [] || record in matching;
      if matching == [] { log := log + [record]; }
    }

    method Log(key: Key, payload: Payload) returns (r: Option<Error>)
      modifies this`log
      ensures SysOutcome(Value(), r) == Append(old(Value()), key, payload)
    {
      var noted := WriteRecord(Event(key, payload));
      if !noted { return Some(IdempotencyError); }
      var saved := WriteRecord(Checkpoint(key, SavedState(ToDict(graph.State()), status, interventions)));
      r := if saved then None else Some(IdempotencyError);
    }

    method CreateRoot(id: Id, refs: References, obligations: seq<Id>) returns (r: Option<Error>)
      requires graph.Named()
      modifies this, graph
      ensures graph.Named()
      ensures SysOutcome(Value(), r) == SysApply(old(Value()), Lifecycle(Op.CreateRoot(id, refs, obligations, [])))
    {
      if status != Active { return Some(TransitionError); }
      r := graph.CreateRoot(id, refs, obligations, []);
      if r == None {
        r := Log(OnCell(CellCreated, id, RevisionIn(graph.State(), id)),
                 Made(None, graph.def.initial, refs, obligations, [], None));
      }
    }

    method AcceptContract(id: Id) returns (r: Option<Error>)
      requires graph.Named()
      modifies this, graph
      ensures graph.Named()
      ensures SysOutcome(Value(), r) == SysApply(old(Value()), Lifecycle(Op.AcceptContract(id)))
    {
      if status != Active { return Some(TransitionError); }
      var from := PhaseIn(graph.State(), id);
      r := graph.AcceptContract(id);
      if r == None {
        r := Log(OnCell(ContractAccepted, id, RevisionIn(graph.State(), id)),
                 PhaseLeft(from, PhaseIn(graph.State(), id)));
      }
    }

    method FreezeTests(id: Id, b: TestBasis) returns (r: Option<Error>)
      requires graph.Named()
      modifies this, graph
      ensures graph.Named()
      ensures SysOutcome(Value(), r) == SysApply(old(Value()), Lifecycle(Op.FreezeTests(id, b)))
    {
      if status != Active { return Some(TransitionError); }
      r := graph.FreezeTests(id, b);
      if r == None { r := Log(OnCell(Topic.TestsFrozen, id, RevisionIn(graph.State(), id)), Tested(b)); }
    }

    method RecordPlan(id: Id, planDigest: string, responsibilities: map<Id, string>) returns (r: Option<Error>)
      requires graph.Named()
      modifies this, graph
      ensures graph.Named()
      ensures SysOutcome(Value(), r) == 
              SysApply(old(Value()), Lifecycle(Op.RecordPlan(id, planDigest, responsibilities)))
    {
      if status != Active { return Some(TransitionError); }
      r := graph.RecordPlan(id, planDigest, responsibilities);
      if r == None {
        r := Log(OnCell(PlanRecorded, id, RevisionIn(graph.State(), id)), Planned(planDigest, responsibilities));
      }
    }

    method RecordPreReview(id: Id, accepted: bool, leaf: bool, seams: seq<string>) returns (r: Option<Error>)
      requires graph.Named()
      modifies this, graph
      ensures graph.Named()
      ensures SysOutcome(Value(), r) == SysApply(old(Value()), Lifecycle(Op.RecordPreReview(id, accepted, leaf, seams)))
    {
      if status != Active { return Some(TransitionError); }
      r := ReviewRefusal(Value(), id);
      if r.Some? { return; }
      r := graph.RecordPreReview(id, accepted, leaf, seams);
      if r == None { r := Log(OnCell(PreReviewed, id, RevisionIn(graph.State(), id)), Reviewed(leaf, seams)); }
    }

    method Decompose(id: Id, children: seq<ChildSpec>) returns (r: Option<Error>)
      requires graph.Named()
      modifies this, graph
      ensures graph.Named()
      ensures SysOutcome(Value(), r) == SysApply(old(Value()), Lifecycle(Op.Decompose(id, children)))
    {
      if status != Active { return Some(TransitionError); }
      r := graph.Decompose(id, children);
      if r.Some? { return; }
      r := LogBirths(ChildrenIn(graph.State(), id));
      if r.Some? { return; }
      r := Log(OnCell(CellSplit, id, RevisionIn(graph.State(), id)), WithChildren(ChildrenIn(graph.State(), id)));
    }

    method LogBirths(ids: seq<Id>) returns (r: Option<Error>)
      modifies this`log
      ensures SysOutcome(Value(), r) == AppendBirths(old(Value()), ids)
    {
      r := None;
      for n := 0 to |ids|
        invariant SysOutcome(Value(), r) == AppendBirths(old(Value()), ids[..n]) && r == None
      {
        assert ids[..n + 1][..n] == ids[..n];
        r := Log(OnCell(CellCreated, ids[n], RevisionIn(graph.State(), ids[n])), BirthOf(graph.State(), ids[n]));
        if r.Some? {
          BirthsStop(old(Value()), ids, n + 1);
          return;
        }
      }
      assert ids[..|ids|] == ids;
    }

    method RecordVerification(id: Id, passed: bool, evidence: seq<string>) returns (r: Option<Error>)
      requires graph.Named()
      modifies this, graph
      ensures graph.Named()
      ensures SysOutcome(Value(), r) == SysApply(old(Value()), Lifecycle(Op.RecordVerification(id, passed, evidence)))
    {
      if status != Active { return Some(TransitionError); }
      r := graph.RecordVerification(id, passed, evidence);
      if r == None {
        r := Log(OnCell(VerificationRecorded, id, RevisionIn(graph.State(), id)), WithEvidence(evidence));
      }
    }

    method BeginIntegration(id: Id) returns (r: Option<Error>)
      requires graph.Named()
      modifies this, graph
      ensures graph.Named()
      ensures SysOutcome(Value(), r) == SysApply(old(Value()), Lifecycle(Op.BeginIntegration(id)))
    {
      if status != Active { return Some(TransitionError); }
      r := graph.BeginIntegration(id);
      if r == None {
        r := Log(OnCell(IntegrationStarted, id, RevisionIn(graph.State(), id)),
                 WithChildren(ChildrenIn(graph.State(), id)));
      }
    }

    method RecordIntegration(id: Id, passed: bool, evidence: seq<string>) returns (r: Option<Error>)
      requires graph.Named()
      modifies this, graph
      ensures graph.Named()
      ensures SysOutcome(Value(), r) ==
              SysApply(old(Value()), Lifecycle(Op.RecordIntegration(id, passed, evidence)))
    {
      if status != Active { return Some(TransitionError); }
      if id in graph.cells && graph.Kind(id) == Children {
        r := BeginIntegration(id);
        if r.Some? { return; }
      }
      r := FinishIntegration(id, passed, evidence);
    }

    method FinishIntegration(id: Id, passed: bool, evidence: seq<string>) returns (r: Option<Error>)
      requires graph.Named() && status == Active
      modifies this, graph
      ensures graph.Named()
      ensures SysOutcome(Value(), r) == Perform(old(Value()), Op.RecordIntegration(id, passed, evidence))
    {
      r := graph.RecordIntegration(id, passed, evidence);
      if r == None {
        r := Log(OnCell(IntegrationRecorded, id, RevisionIn(graph.State(), id)), WithEvidence(evidence));
      }
    }

    method RecordPostReview(id: Id, accepted: bool, evidence: seq<string>) returns (r: Option<Error>)
      requires graph.Named()
      modifies this, graph
      ensures graph.Named()
      ensures SysOutcome(Value(), r) == SysApply(old(Value()), Lifecycle(Op.RecordPostReview(id, accepted, evidence)))
    {
      if status != Active { return Some(TransitionError); }
      r := ReviewRefusal(Value(), id);
      if r.Some? { return; }
      r := graph.RecordPostReview(id, accepted, evidence);
      if r == None { r := Log(OnCell(PostReviewed, id, RevisionIn(graph.State(), id)), WithEvidence(evidence)); }
    }

    method Close(id: Id) returns (r: Option<Error>)
      requires graph.Named()
      modifies this, graph
      ensures graph.Named()
      ensures SysOutcome(Value(), r) == SysApply(old(Value()), Lifecycle(Op.Close(id)))
    {
      if status != Active { return Some(TransitionError); }
      r := graph.Close(id);
      if r == None {
        r := Log(OnCell(CellClosed, id, RevisionIn(graph.State(), id)), InPhase(PhaseIn(graph.State(), id)));
      }
    }

    method Park(reason: string) returns (r: Option<Error>)
      modifies this
      ensures SysOutcome(Value(), r) == SysApply(old(Value()), ParkOp(reason))
    {
      if reason == "" { return Some(SchemaError); }
      if status != Active { return Some(TransitionError); }
      status := Parked;
      r := Log(AtLength(Parked, |log|), StatusChanged(Parked, reason));
    }

    method Pause(reason: string) returns (r: Option<Error>)
      modifies this
      ensures SysOutcome(Value(), r) == SysApply(old(Value()), PauseOp(reason))
    {
      if reason == "" { return Some(SchemaError); }
      if status != Active { return Some(TransitionError); }
      status := Paused;
      r := Log(AtLength(Paused, |log|), StatusChanged(Paused, reason));
    }

    method Halt(reason: string) returns (r: Option<Error>)
      modifies this
      ensures SysOutcome(Value(), r) == SysApply(old(Value()), HaltOp(reason))
    {
      if reason == "" { return Some(SchemaError); }
      if status == Halted { return Some(TransitionError); }
      status := Halted;
      r := Log(AtLength(Halted, |log|), StatusChanged(Halted, reason));
    }

    method RecordIntervention(i: Intervention) returns (r: Option<Error>)
      modifies this
      ensures SysOutcome(Value(), r) == SysApply(old(Value()), InterveneOp(i))
    {
      if i.authorization == "" { return Some(AuthorityError); }
      if i.action == "" || i.reason == "" { return Some(SchemaError); }
      interventions := interventions + [i];
      r := Log(OfOwner(i.authorization, |interventions|), Intervened(i));
    }

    method Resume(authorization: string) returns (r: Option<Error>)
      modifies this
      ensures SysOutcome(Value(), r) == SysApply(old(Value()), ResumeOp(authorization))
    {
      if authorization == "" { return Some(AuthorityError); }
      if status == Halted { return Some(TransitionError); }
      if status != Paused && status != Parked { return Some(TransitionError); }
      if !MayResume(Value(), authorization) { return Some(AuthorityError); }
      status := Active;
      r := Log(AtLength(Active, |log|), StatusChanged(Active, authorization));
    }
  }

  lemma {:induction false} BirthsStop(s: Sys, ids: seq<Id>, n: nat)
    requires n <= |ids| && AppendBirths(s, ids[..n]).error.Some?
    ensures AppendBirths(s, ids) == AppendBirths(s, ids[..n])
    decreases |ids|
  {
    if n == |ids| {
      assert ids[..n] == ids;
    } else {
      var fewer := ids[..|ids| - 1];
      assert fewer[..n] == ids[..n];
      BirthsStop(s, fewer, n);
    }
  }
}
