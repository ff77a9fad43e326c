/** What the log of a driver run holds for redoing a call whose event a crash cut off
    from its checkpoint: checkpoints follow each other as the graph moved, no event is
    more than one call ahead of them, and what it recorded some answer can record again. */
module Redo {
  import opened Basics
  import opened Workflow
  import opened GraphInvariant
  import opened System
  import opened History
  import DriverSteps

  // ---------- Cells the driver made ----------

  /** What a Cell needs for its next answer to be possible: no claim on it, tests that
      run once it has any, responsibilities once it is planned. */
  predicate EquippedCell(kind: Kind, c: Cell) {
    && c.claims == map[]
    && (kind == Plan || kind == PreReview || kind == Implementation ==>
          Truthy(c.visibleTests) && Truthy(c.holdoutTests) && !ObligationsUntested(c) && c.testsExecutable)
    && (kind == PreReview || kind == Implementation ==>
          c.responsibilities.Keys == SetOf(c.obligations) && !Unowned(c))
  }

  ghost predicate EquippedAt(g: Graph, id: Id)
    requires id in g.cells
  {
    EquippedCell(g.Kind(id), g.cells[id])
  }

  ghost predicate Equipped(g: Graph) {
    forall id {:trigger EquippedAt(g, id)} | id in g.cells :: EquippedAt(g, id)
  }

  // ---------- graphs that follow each other ----------

  /** The same but for an accepted post-review. */
  predicate Alike(c: Cell, c': Cell) {
    c' == c.(postReviewAccepted := c'.postReviewAccepted)
  }

  /** Where the Cell of one graph is in a later one. */
  ghost predicate LaterAt(g: Graph, g': Graph, id: Id) {
    id in g.cells ==>
      && id in g'.cells && SamePlace(g.cells[id], g'.cells[id])
      && g.cells[id].revision <= g'.cells[id].revision
      && (g.cells[id].revision == g'.cells[id].revision ==> Alike(g.cells[id], g'.cells[id]))
  }

  ghost predicate Later(g: Graph, g': Graph) {
    g'.def == g.def && forall id {:trigger LaterAt(g, g', id)} :: LaterAt(g, g', id)
  }

  lemma LaterIsTransitive(g: Graph, g1: Graph, g2: Graph)
    requires Later(g, g1) && Later(g1, g2)
    ensures Later(g, g2)
  {
    forall id {:trigger LaterAt(g, g2, id)} ensures LaterAt(g, g2, id) {
      assert LaterAt(g, g1, id) && LaterAt(g1, g2, id);
    }
  }

  lemma LaterIsReflexive(g: Graph)
    ensures Later(g, g)
  {
    forall id {:trigger LaterAt(g, g, id)} ensures LaterAt(g, g, id) {}
  }

  // ---------- calls ----------

  /** A call as the driver makes it. */
  ghost predicate Driven(g: Graph, op: Op) {
    && (DriverSteps.OnePhase(op) || op.RecordPostReview?) && op.id in g.cells
    && (op.FreezeTests? ==> op.basis.executable)
    && (op.RecordIntegration? ==> g.Kind(op.id) == Integration)
  }

  lemma EarlyCallEquips(g: Graph, c: Cell, op: Op)
    requires Sound(g, c) && EquippedCell(g.def.KindOf(c.phase), c) && ApplyTo(g, c, op).error == None
    requires op.AcceptContract? || (op.FreezeTests? && op.basis.executable)
    ensures c.cellId in ApplyTo(g, c, op).graph.cells
    ensures var c' := ApplyTo(g, c, op).graph.cells[c.cellId];
            EquippedCell(g.def.KindOf(c'.phase), c') && c'.revision == c.revision + 1
  {
    match op
    case AcceptContract(_) => TransitionEnters(g, c, "accepted", Tests);
    case FreezeTests(_, b) => TransitionEnters(Put(g, Frozen(c, b), "tests.frozen"), Frozen(c, b), "frozen", Plan);
  }

  lemma PlanEquips(g: Graph, c: Cell, op: Op)
    requires Sound(g, c) && EquippedCell(g.def.KindOf(c.phase), c) && ApplyTo(g, c, op).error == None
    requires op.RecordPlan? && c.obligations != []
    ensures c.cellId in ApplyTo(g, c, op).graph.cells
    ensures var c' := ApplyTo(g, c, op).graph.cells[c.cellId];
            EquippedCell(g.def.KindOf(c'.phase), c') && c'.revision == c.revision + 1
  {
    var c1 := c.(planDigest := Some(op.planDigest), responsibilities := op.responsibilities);
    TransitionEnters(Put(g, c1, "plan.recorded"), c1, "planned", PreReview);
    assert c.obligations[0] in op.responsibilities;
  }

  lemma PreReviewEquips(g: Graph, c: Cell, op: Op)
    requires Sound(g, c) && EquippedCell(g.def.KindOf(c.phase), c) && ApplyTo(g, c, op).error == None
    requires op.RecordPreReview?
    ensures c.cellId in ApplyTo(g, c, op).graph.cells
    ensures var c' := ApplyTo(g, c, op).graph.cells[c.cellId];
            EquippedCell(g.def.KindOf(c'.phase), c') && c'.revision == c.revision + 1
  {
    var c1 := c.(preReviewAccepted := true, leaf := Some(op.leaf), seams := op.seams);
    if op.leaf {
      TransitionEnters(Put(g, c1, "pre_review.recorded"), c1, "leaf", Implementation);
    } else {
      TransitionEnters(Put(g, c1, "pre_review.recorded"), c1, "composite", Children);
    }
  }

  lemma LateCallEquips(g: Graph, c: Cell, op: Op)
    requires Sound(g, c) && EquippedCell(g.def.KindOf(c.phase), c) && ApplyTo(g, c, op).error == None
    requires op.RecordVerification? || op.BeginIntegration?
    ensures c.cellId in ApplyTo(g, c, op).graph.cells
    ensures var c' := ApplyTo(g, c, op).graph.cells[c.cellId];
            EquippedCell(g.def.KindOf(c'.phase), c') && c'.revision == c.revision + 1
  {
    if op.RecordVerification? {
      var c1 := c.(verificationPassed := true);
      TransitionEnters(Put(g, c1, "verification.recorded"), c1, "verified", PostReview);
    } else {
      TransitionEnters(g, c, "integrated", Integration);
    }
  }

  lemma LastCallEquips(g: Graph, c: Cell, op: Op)
    requires Sound(g, c) && EquippedCell(g.def.KindOf(c.phase), c) && ApplyTo(g, c, op).error == None
    requires op.Close? || (op.RecordIntegration? && g.def.KindOf(c.phase) == Integration)
    ensures c.cellId in ApplyTo(g, c, op).graph.cells
    ensures var c' := ApplyTo(g, c, op).graph.cells[c.cellId];
            EquippedCell(g.def.KindOf(c'.phase), c') && c'.revision == c.revision + 1
  {
    if op.RecordIntegration? {
      var c1 := c.(integrationPassed := true);
      TransitionEnters(Put(g, c1, "verification.recorded"), c1, "verified", PostReview);
    } else {
      TransitionEnters(g, c, "accepted", Closed);
    }
  }

  lemma PostReviewEquips(g: Graph, c: Cell, op: Op)
    requires Sound(g, c) && EquippedCell(g.def.KindOf(c.phase), c) && ApplyTo(g, c, op).error == None
    requires op.RecordPostReview?
    ensures c.cellId in ApplyTo(g, c, op).graph.cells
    ensures var c' := ApplyTo(g, c, op).graph.cells[c.cellId];
            EquippedCell(g.def.KindOf(c'.phase), c') && Alike(c, c')
  {}

  lemma MovingCallEquips(g: Graph, c: Cell, op: Op)
    requires Sound(g, c) && EquippedCell(g.def.KindOf(c.phase), c) && ApplyTo(g, c, op).error == None
    requires DriverSteps.OnePhase(op) && c.obligations != [] && (op.FreezeTests? ==> op.basis.executable)
    requires op.RecordIntegration? ==> g.def.KindOf(c.phase) == Integration
    ensures c.cellId in ApplyTo(g, c, op).graph.cells
    ensures var c' := ApplyTo(g, c, op).graph.cells[c.cellId];
            EquippedCell(g.def.KindOf(c'.phase), c') && c'.revision == c.revision + 1
  {
    match op
    case AcceptContract(_) => EarlyCallEquips(g, c, op);
    case FreezeTests(_, _) => EarlyCallEquips(g, c, op);
    case RecordPlan(_, _, _) => PlanEquips(g, c, op);
    case RecordPreReview(_, _, _, _) => PreReviewEquips(g, c, op);
    case RecordVerification(_, _, _) => LateCallEquips(g, c, op);
    case BeginIntegration(_) => LateCallEquips(g, c, op);
    case _ => LastCallEquips(g, c, op);
  }

  /** g' is at or past g, and the driver could go on from it. */
  ghost predicate Follows(g: Graph, g': Graph) {
    Later(g, g') && Equipped(g')
  }

  /** A driven call moves its Cell on by one revision, a post-review by none, and leaves
      it equipped. */
  lemma CallEquips(g: Graph, c: Cell, op: Op)
    requires Sound(g, c) && EquippedCell(g.def.KindOf(c.phase), c) && ApplyTo(g, c, op).error == None
    requires DriverSteps.OnePhase(op) || op.RecordPostReview?
    requires c.obligations != [] && (op.FreezeTests? ==> op.basis.executable)
    requires op.RecordIntegration? ==> g.def.KindOf(c.phase) == Integration
    ensures c.cellId in ApplyTo(g, c, op).graph.cells
    ensures var c' := ApplyTo(g, c, op).graph.cells[c.cellId];
            && EquippedCell(g.def.KindOf(c'.phase), c')
            && if op.RecordPostReview? then Alike(c, c') else c'.revision == c.revision + 1
  {
    if op.RecordPostReview? { PostReviewEquips(g, c, op); } else { MovingCallEquips(g, c, op); }
  }

  /** One Cell was rewritten, and stayed equipped. */
  lemma RewriteFollows(g: Graph, g': Graph, x: Id)
    requires Equipped(g) && Rewrites(g, g', x) && EquippedAt(g', x)
    requires g.cells[x].revision < g'.cells[x].revision || Alike(g.cells[x], g'.cells[x])
    ensures Follows(g, g')
  {
    forall id {:trigger LaterAt(g, g', id)} ensures LaterAt(g, g', id) {}
    forall id | id in g'.cells ensures EquippedAt(g', id) { assert id in g.cells && EquippedAt(g, id); }
  }

  lemma CallFollows(g: Graph, op: Op)
    requires Inv(g) && Driven(g, op) && Equipped(g) && Apply(g, op).error == None
    ensures Follows(g, Apply(g, op).graph)
    ensures var g' := Apply(g, op).graph;
            && op.id in g'.cells
            && g'.cells[op.id].revision == g.cells[op.id].revision + if op.RecordPostReview? then 0 else 1
  {
    var g' := Apply(g, op).graph;
    assert ConsistentAt(g, op.id) && EquippedAt(g, op.id) && Placed(g, op.id);
    CellStepRewrites(g, g.cells[op.id], op);
    CallEquips(g, g.cells[op.id], op);
    RewriteFollows(g, g', op.id);
  }

  lemma SplitCellFollows(g: Graph, g': Graph, x: Id, children: seq<ChildSpec>, id: Id)
    requires x in g.cells && Decomposed(g, g', g.cells[x], children) && g.cells[x].cellId == x
    requires g.def.KindOf(g.def.initial) == Contract && (id in g.cells ==> EquippedAt(g, id))
    requires g.Kind(x) == Children
    ensures LaterAt(g, g', id) && (id in g'.cells ==> EquippedAt(g', id))
  {
    if id in g'.cells && id !in g.cells {
      var i :| 0 <= i < |children| && ChildIds(children)[i] == id;
    }
  }

  lemma SplitMovesOn(g: Graph, x: Id, children: seq<ChildSpec>)
    requires Inv(g) && Equipped(g) && x in g.cells && Apply(g, Op.Decompose(x, children)).error == None
    ensures Follows(g, Apply(g, Op.Decompose(x, children)).graph)
  {
    var g' := Apply(g, Op.Decompose(x, children)).graph;
    assert ConsistentAt(g, x);
    DecomposeEffect(g, g.cells[x], children);
    forall id {:trigger LaterAt(g, g', id)} ensures LaterAt(g, g', id) {
      assert id in g.cells ==> EquippedAt(g, id);
      SplitCellFollows(g, g', x, children, id);
    }
    forall id | id in g'.cells ensures EquippedAt(g', id) {
      assert id in g.cells ==> EquippedAt(g, id);
      SplitCellFollows(g, g', x, children, id);
    }
  }

  // ---------- events and checkpoints ----------

  function GraphAt(d: Definition, log: Log, i: nat): Graph
    requires i < |log| && log[i].Checkpoint?
  {
    GraphOf(d, log[i].state.graph)
  }

  /** The graph opening would find. */
  function LastGraph(d: Definition, log: Log): Graph
    requires LastCheckpoint(log).Some?
  {
    GraphAt(d, log, LastCheckpoint(log).value)
  }

  function TargetOf(d: Definition, phase: string, outcome: string): string {
    if d.Target(phase, outcome).Some? then d.Target(phase, outcome).value else ""
  }

  /** An answer for the Cell can record this content. */
  predicate Redoable(d: Definition, c: Cell, topic: Topic, payload: Payload) {
    match topic
    case ContractAccepted => payload == PhaseLeft(c.phase, TargetOf(d, c.phase, "accepted"))
    case TestsFrozen => payload.Tested? && payload.basis.executable && GoodBasis(c, payload.basis)
    case PlanRecorded =>
      && payload.Planned? && payload.responsibilities.Keys == SetOf(c.obligations)
      && forall o | o in payload.responsibilities :: payload.responsibilities[o] != ""
    case PreReviewed =>
      && payload.Reviewed? && DriverSteps.Strings(payload.seams)
      && if payload.leaf then payload.seams == []
         else Splittable(c)
    case VerificationRecorded => EvidenceOf(payload)
    case IntegrationStarted => payload == WithChildren(c.children)
    case IntegrationRecorded => EvidenceOf(payload)
    case PostReviewed => EvidenceOf(payload)
    case CellClosed => payload == InPhase(TargetOf(d, c.phase, "accepted"))
    case _ => true
  }

  predicate EvidenceOf(payload: Payload) {
    payload.WithEvidence? && payload.evidence != [] && DriverSteps.Strings(payload.evidence)
  }

  /** How far the call that writes such an event moves its Cell. */
  function Ahead(topic: Topic): nat {
    if topic == PostReviewed then 0 else 1
  }

  /** If the event is that of the next call on its Cell, it can be redone. */
  ghost predicate RedoneAt(q: Record, g: Graph) {
    q.Event? && q.key.OnCell? && q.key.cellId in g.cells
    && q.key.revision == g.cells[q.key.cellId].revision + Ahead(q.key.topic) ==>
      Redoable(g.def, g.cells[q.key.cellId], q.key.topic, q.payload)
  }

  /** The event is at most that of the next call on its Cell. */
  ghost predicate NearAt(q: Record, g: Graph) {
    q.Event? && q.key.OnCell? && q.key.topic != CellCreated ==>
      q.key.cellId in g.cells && q.key.revision <= g.cells[q.key.cellId].revision + Ahead(q.key.topic)
  }

  /** Earlier checkpoints are behind later ones, events near the checkpoint before them
      and redoable from every checkpoint. */
  ghost predicate OrderedAt(d: Definition, log: Log, j: nat)
    requires j < |log|
  {
    if log[j].Checkpoint? then
      && Equipped(GraphAt(d, log, j))
      && (forall i | 0 <= i < j && log[i].Checkpoint? :: Later(GraphAt(d, log, i), GraphAt(d, log, j)))
      && (forall i | 0 <= i < j && log[i].Event? :: RedoneAt(log[i], GraphAt(d, log, j)))
    else
      && (LastCheckpoint(log[..j]).Some? ==> NearAt(log[j], LastGraph(d, log[..j])))
      && (forall i | 0 <= i < j && log[i].Checkpoint? :: RedoneAt(log[j], GraphAt(d, log, i)))
  }

  ghost predicate Ordered(d: Definition, log: Log) {
    && |log| >= 2 && log[0].Event? && !log[0].key.OnCell? && log[1].Checkpoint?
    && forall j {:trigger OrderedAt(d, log, j)} | 0 <= j < |log| :: OrderedAt(d, log, j)
  }

  lemma PrefixOrdered(d: Definition, log: Log, k: nat)
    requires Ordered(d, log) && 2 <= k <= |log|
    ensures Ordered(d, log[..k])
  {
    forall j | 0 <= j < k ensures OrderedAt(d, log[..k], j) {
      assert OrderedAt(d, log, j) && log[..k][..j] == log[..j];
    }
  }

  lemma HasCheckpoint(d: Definition, log: Log)
    requires Ordered(d, log)
    ensures LastCheckpoint(log).Some?
  {}

  lemma OneMoreOrdered(d: Definition, log: Log, r: Record)
    requires Ordered(d, log) && OrderedAt(d, log + [r], |log|)
    ensures Ordered(d, log + [r])
  {
    var longer := log + [r];
    forall j | 0 <= j < |longer| ensures OrderedAt(d, longer, j) {
      if j < |log| { assert OrderedAt(d, log, j) && longer[..j] == log[..j]; }
    }
  }

  /** Every checkpoint is behind the last one. */
  lemma LastIsLatest(d: Definition, log: Log, i: nat)
    requires Ordered(d, log) && i < |log| && log[i].Checkpoint?
    ensures LastCheckpoint(log).Some? && Later(GraphAt(d, log, i), LastGraph(d, log))
  {
    var at := LastCheckpoint(log).value;
    if i < at { assert OrderedAt(d, log, at); } else { LaterIsReflexive(GraphAt(d, log, i)); }
  }

  /** Every event is near the last checkpoint, and redoable from it. */
  lemma EventIsNear(d: Definition, log: Log, i: nat)
    requires Ordered(d, log) && i < |log| && log[i].Event?
    ensures LastCheckpoint(log).Some?
    ensures NearAt(log[i], LastGraph(d, log)) && RedoneAt(log[i], LastGraph(d, log))
  {
    HasCheckpoint(d, log);
    var at := LastCheckpoint(log).value;
    assert OrderedAt(d, log, i) && OrderedAt(d, log, at);
    if i > 0 {
      assert log[1].Checkpoint?;
      assert log[..i][1] == log[1];
      var before := LastCheckpoint(log[..i]).value;
      assert log[before] == log[..i][before];
      LastIsLatest(d, log, before);
      if log[i].key.OnCell? { assert LaterAt(GraphAt(d, log, before), LastGraph(d, log), log[i].key.cellId); }
    }
  }

  lemma AlikeRedoes(d: Definition, c: Cell, c': Cell, topic: Topic, payload: Payload)
    requires Alike(c, c')
    ensures Redoable(d, c, topic, payload) <==> Redoable(d, c', topic, payload)
  {}

  /** What an event recorded stays redoable as the memory moves on: its Cell did not move,
      or is past it. */
  lemma MovedRedoes(q: Record, g: Graph, g': Graph)
    requires Later(g, g') && RedoneAt(q, g) && NearAt(q, g)
    ensures RedoneAt(q, g')
  {
    if q.Event? && q.key.OnCell? {
      var x := q.key.cellId;
      assert LaterAt(g, g', x);
      if x in g.cells && x in g'.cells && g.cells[x].revision == g'.cells[x].revision {
        AlikeRedoes(g.def, g.cells[x], g'.cells[x], q.key.topic, q.payload);
      }
    }
  }

  lemma OneMoreCheckpoint(d: Definition, log: Log, r: Record)
    requires Ordered(d, log) && LastCheckpoint(log).Some? && r.Checkpoint?
    requires Follows(LastGraph(d, log), GraphOf(d, r.state.graph))
    ensures Ordered(d, log + [r]) && LastCheckpoint(log + [r]) == Some(|log|)
  {
    var longer, g := log + [r], LastGraph(d, log);
    LastOf(log, r);
    forall i | 0 <= i < |log| && log[i].Checkpoint? ensures Later(GraphAt(d, longer, i), GraphAt(d, longer, |log|)) {
      LastIsLatest(d, log, i);
      LaterIsTransitive(GraphAt(d, log, i), g, GraphOf(d, r.state.graph));
    }
    forall i | 0 <= i < |log| && log[i].Event? ensures RedoneAt(longer[i], GraphAt(d, longer, |log|)) {
      EventIsNear(d, log, i);
      MovedRedoes(log[i], g, GraphOf(d, r.state.graph));
    }
    OneMoreOrdered(d, log, r);
  }

  /** An event redoable from the last checkpoint and near it is redoable from all. */
  lemma OneMoreEvent(d: Definition, log: Log, q: Record)
    requires Ordered(d, log) && LastCheckpoint(log).Some? && q.Event?
    requires NearAt(q, LastGraph(d, log)) && ReachesBack(q, LastGraph(d, log))
    ensures Ordered(d, log + [q]) && LastCheckpoint(log + [q]) == LastCheckpoint(log)
  {
    var longer, g := log + [q], LastGraph(d, log);
    LastOf(log, q);
    assert longer[..|log|] == log;
    forall i | 0 <= i < |log| && log[i].Checkpoint? ensures RedoneAt(q, GraphAt(d, longer, i)) {
      LastIsLatest(d, log, i);
      ReachesThere(q, GraphAt(d, log, i), g);
    }
    OneMoreOrdered(d, log, q);
  }

  /** The event is the one of the very next call on its Cell, and redoable; or it is of
      a birth or a split, which only go with a review that is redone first. */
  ghost predicate ReachesBack(q: Record, g: Graph) {
    q.Event? && q.key.OnCell? && q.key.topic != CellCreated ==>
      && q.key.cellId in g.cells && q.key.revision <= g.cells[q.key.cellId].revision + Ahead(q.key.topic)
      && (q.key.topic != CellSplit ==>
            && q.key.revision == g.cells[q.key.cellId].revision + Ahead(q.key.topic)
            && Redoable(g.def, g.cells[q.key.cellId], q.key.topic, q.payload))
  }

  lemma ReachesThere(q: Record, before: Graph, g: Graph)
    requires ReachesBack(q, g) && Later(before, g)
    ensures RedoneAt(q, before)
  {
    if q.Event? && q.key.OnCell? && q.key.topic != CellCreated && q.key.topic != CellSplit {
      var x := q.key.cellId;
      assert LaterAt(before, g, x);
      if x in before.cells && before.cells[x].revision == g.cells[x].revision {
        AlikeRedoes(g.def, before.cells[x], g.cells[x], q.key.topic, q.payload);
      }
    }
  }

  // ---------- live systems ----------

  /** The log is ordered, and the memory at or past its last checkpoint. */
  ghost predicate Tracked(s: Sys) {
    && Ordered(s.graph.def, s.log) && LastCheckpoint(s.log).Some?
    && Follows(LastGraph(s.graph.def, s.log), s.graph)
  }

  /** The last checkpoint has the graph in memory. */
  ghost predicate Settled(s: Sys) {
    Tracked(s) && LastGraph(s.graph.def, s.log) == s.graph
  }

  lemma NotedTracks(s: Sys, e: Record)
    requires Tracked(s) && e.Event? && ReachesBack(e, LastGraph(s.graph.def, s.log))
    ensures var noted := Write(s.log, e);
            noted.Some? ==>
              && Tracked(s.(log := noted.value))
              && LastGraph(s.graph.def, noted.value) == LastGraph(s.graph.def, s.log)
  {
    var noted := Write(s.log, e);
    if noted.Some? && noted.value != s.log {
      OneMoreEvent(s.graph.def, s.log, e);
      assert noted.value == s.log + [e];
    }
  }

  lemma SavedTracks(s: Sys, key: Key)
    requires Tracked(s)
    ensures var saved := Write(s.log, Checkpoint(key, Save(s)));
            saved.Some? ==>
              && Tracked(s.(log := saved.value))
              && (saved.value != s.log || Settled(s) ==> Settled(s.(log := saved.value)))
  {
    var r := Checkpoint(key, Save(s));
    var saved := Write(s.log, r);
    assert GraphOf(s.graph.def, ToDict(s.graph)) == s.graph;
    if saved.Some? && saved.value != s.log {
      OneMoreCheckpoint(s.graph.def, s.log, r);
      LaterIsReflexive(s.graph);
    }
  }

  lemma AppendTracks(s: Sys, key: Key, payload: Payload)
    requires Tracked(s)
    requires ReachesBack(Event(key, payload), LastGraph(s.graph.def, s.log))
    ensures var o := Append(s, key, payload);
            && Tracked(o.sys) && o.sys.graph == s.graph
            && (Settled(s) ==> Settled(o.sys))
            && (o.error == None && Unsaved(s.log, key) ==> Settled(o.sys))
  {
    var noted := Write(s.log, Event(key, payload));
    NotedTracks(s, Event(key, payload));
    if noted.Some? {
      SavedTracks(s.(log := noted.value), key);
      if Unsaved(s.log, key) { UnsavedIsWritten(s.log, noted.value, key, payload, Save(s)); }
    }
  }

  lemma UnsavedIsWritten(log: Log, noted: Log, key: Key, payload: Payload, state: SavedState)
    requires Unsaved(log, key) && Write(log, Event(key, payload)) == Some(noted)
    ensures Write(noted, Checkpoint(key, state)) == Some(noted + [Checkpoint(key, state)])
  {
    assert Unsaved(noted, key);
  }

  /** What the call is about to record can be recorded again. */
  ghost predicate Recordable(g: Graph, op: Op) {
    && Driven(g, op)
    && (op.RecordPreReview? ==> op.accepted && DriverSteps.Strings(op.seams) && (op.leaf || Splittable(g.cells[op.id])))
    && (op.RecordVerification? || op.RecordIntegration? || op.RecordPostReview? ==> DriverSteps.Strings(op.evidence))
  }

  predicate Splittable(c: Cell) {
    DriverSteps.Strings(c.obligations) && DriverSteps.Strings(c.scope)
  }

  lemma ContentIsRedoable(g: Graph, c: Cell, op: Op)
    requires Sound(g, c) && Recordable(g, op) && op.id == c.cellId && ApplyTo(g, c, op).error == None
    ensures var g' := ApplyTo(g, c, op).graph;
            Redoable(g.def, c, TopicOf(op), ContentOf(op, g, g'))
  {}

  lemma CallReachesBack(g: Graph, op: Op)
    requires Inv(g) && Equipped(g) && Recordable(g, op) && Apply(g, op).error == None
    ensures ReachesBack(Event(KeyOf(op, Apply(g, op).graph), ContentOf(op, g, Apply(g, op).graph)), g)
  {
    assert ConsistentAt(g, op.id);
    CallFollows(g, op);
    ContentIsRedoable(g, g.cells[op.id], op);
  }
}
