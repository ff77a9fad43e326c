/** What every log of a run keeps, crashed and reopened or not: ids are unique,
    checkpoints save sound graphs and agree with the status events before them, and
    what a checkpoint's id names is never ahead of the state it saves. */
module History {
  import opened Basics
  import opened Workflow
  import opened GraphInvariant
  import opened Closure
  import opened System

  type Log = seq<Record>

  // ---------- logs ----------

  function LastCheckpoint(log: Log): (at: Option<nat>)
    ensures at.Some? ==> at.value < |log| && log[at.value].Checkpoint?
    ensures at.Some? ==> forall i | at.value < i < |log| :: log[i].Event?
    ensures at.None? ==> forall i | 0 <= i < |log| :: log[i].Event?
  {
    if log == [] then None
    else
      var n := |log| - 1;
      if log[n].Checkpoint? then Some(n) else LastCheckpoint(log[..n])
  }

  function StatusAt(log: Log): RunStatus {
    if LastCheckpoint(log).Some? then log[LastCheckpoint(log).value].state.status else Active
  }

  ghost predicate UniqueIds(log: Log) {
    forall i, j | 0 <= i < j < |log| :: !SameId(log[i], log[j])
  }

  /** The saved state is at or past what the id names. */
  predicate Bounded(key: Key, state: SavedState) {
    match key
    case OnCell(_, id, revision) => id in state.graph.cells && revision <= state.graph.cells[id].revision
    case OfOwner(_, count) => count <= |state.interventions|
    case _ => true
  }

  /** No checkpoint is ahead of the state: neither its id nor its graph's events. */
  predicate Behind(r: Record, state: SavedState)
    requires r.Checkpoint?
  {
    Bounded(r.key, state) && |r.state.graph.events| <= |state.graph.events|
  }

  ghost predicate AllBehind(log: Log, state: SavedState) {
    forall i | 0 <= i < |log| && log[i].Checkpoint? :: Behind(log[i], state)
  }

  predicate EventSound(log: Log, i: nat)
    requires i < |log| && log[i].Event?
  {
    var key, payload := log[i].key, log[i].payload;
    && (key.AtLength? <==> payload.StatusChanged?)
    && (key.AtLength? ==> key.length == i && payload.status == key.to != StatusAt(log[..i]))
  }

  ghost predicate CheckpointSound(runId: string, def: Definition, log: Log, i: nat)
    requires i < |log| && log[i].Checkpoint?
  {
    var key, state := log[i].key, log[i].state;
    && state.graph.runId == runId && state.graph.version == def.version
    && ForwardInv(GraphOf(def, state.graph))
    && state.status == (if key.AtLength? then key.to else StatusAt(log[..i]))
    && (key.AtLength? ==> i > 0 && log[i - 1].Event? && log[i - 1].key == key)
    && AllBehind(log[..i + 1], state)
  }

  ghost predicate SoundAt(runId: string, def: Definition, log: Log, i: nat)
    requires i < |log|
  {
    if log[i].Event? then EventSound(log, i) else CheckpointSound(runId, def, log, i)
  }

  ghost predicate LogSound(runId: string, def: Definition, log: Log) {
    && |log| >= 2 && log[0] == Event(Creation, RunOpened) && log[1].Checkpoint?
    && UniqueIds(log)
    && forall i {:trigger SoundAt(runId, def, log, i)} | 0 <= i < |log| :: SoundAt(runId, def, log, i)
  }

  /** What the memory of a live system keeps beside its log. */
  ghost predicate Held(runId: string, s: Sys) {
    ForwardInv(s.graph) && s.graph.runId == runId && s.status == StatusAt(s.log) && AllBehind(s.log, Save(s))
  }

  ghost predicate LiveSound(runId: string, s: Sys) {
    LogSound(runId, s.graph.def, s.log) && Held(runId, s)
  }

  lemma PrefixSound(runId: string, def: Definition, log: Log, k: nat)
    requires LogSound(runId, def, log) && 2 <= k <= |log|
    ensures LogSound(runId, def, log[..k])
  {
    var cut := log[..k];
    forall i | 0 <= i < k ensures SoundAt(runId, def, cut, i) {
      assert SoundAt(runId, def, log, i) && cut[..i] == log[..i] && cut[..i + 1] == log[..i + 1];
    }
  }

  // ---------- writing ----------

  lemma WriteKeeps(log: Log, r: Record)
    requires UniqueIds(log)
    ensures var w := Write(log, r);
            w.Some? ==>
              UniqueIds(w.value) && r in w.value && (w.value == log || (w.value == log + [r] && !Taken(log, r)))
  {
    if Write(log, r) == Some(log + [r]) {
      forall i | 0 <= i < |log| ensures !SameId(log[i], r) { assert log[i] in log; }
    }
  }

  lemma LastOf(log: Log, r: Record)
    ensures LastCheckpoint(log + [r]) == if r.Checkpoint? then Some(|log|) else LastCheckpoint(log)
    ensures StatusAt(log + [r]) == if r.Checkpoint? then r.state.status else StatusAt(log)
  {
    assert (log + [r])[..|log|] == log;
  }

  lemma OneMoreSound(runId: string, def: Definition, log: Log, r: Record)
    requires LogSound(runId, def, log) && !Taken(log, r) && UniqueIds(log + [r])
    requires SoundAt(runId, def, log + [r], |log|)
    ensures LogSound(runId, def, log + [r])
  {
    var longer := log + [r];
    forall i | 0 <= i < |longer| ensures SoundAt(runId, def, longer, i) {
      if i < |log| {
        assert SoundAt(runId, def, log, i) && longer[..i] == log[..i] && longer[..i + 1] == log[..i + 1];
      }
    }
  }

  /** The event the call is about to write, against what the log holds. */
  ghost predicate Clashes(log: Log, key: Key, payload: Payload) {
    exists q | q in log :: q.Event? && q.key == key && q.payload != payload
  }

  ghost predicate Unsaved(log: Log, key: Key) {
    forall q | q in log && q.Checkpoint? :: q.key != key
  }

  /** What writing an event asks of its key, its payload and the status in memory. */
  ghost predicate Fits(log: Log, status: RunStatus, key: Key, payload: Payload) {
    if key.AtLength? then
      key.length == |log| && payload.StatusChanged? && payload.status == key.to == status && status != StatusAt(log)
    else !payload.StatusChanged? && status == StatusAt(log)
  }

  lemma LengthIsFresh(runId: string, def: Definition, log: Log, key: Key)
    requires LogSound(runId, def, log) && key.AtLength? && key.length == |log|
    ensures forall q | q in log :: q.key != key
  {
    forall q | q in log ensures q.key != key {
      var i :| 0 <= i < |log| && log[i] == q;
      assert SoundAt(runId, def, log, i);
      assert i > 0 ==> SoundAt(runId, def, log, i - 1);
    }
  }

  lemma EventWrites(runId: string, def: Definition, log: Log, status: RunStatus, key: Key, payload: Payload)
    requires LogSound(runId, def, log) && Fits(log, status, key, payload)
    ensures var w := Write(log, Event(key, payload));
            && (w.Some? <==> !Clashes(log, key, payload))
            && (w.Some? ==> LogSound(runId, def, w.value) && StatusAt(w.value) == StatusAt(log)
                            && (w.value == log || w.value == log + [Event(key, payload)]))
            && (key.AtLength? ==> w == Some(log + [Event(key, payload)]))
  {
    var r := Event(key, payload);
    var w := Write(log, r);
    WriteKeeps(log, r);
    if key.AtLength? { LengthIsFresh(runId, def, log, key); }
    if r in log { OnlyEventWith(log, r); }
    if Taken(log, r) && r !in log { var q :| q in log && SameId(q, r); }
    if w == Some(log + [r]) && r !in log {
      LastOf(log, r);
      assert (log + [r])[..|log|] == log;
      OneMoreSound(runId, def, log, r);
    }
  }

  lemma OnlyEventWith(log: Log, r: Record)
    requires UniqueIds(log) && r in log && r.Event?
    ensures !Clashes(log, r.key, r.payload)
  {
    var i :| 0 <= i < |log| && log[i] == r;
    forall q | q in log && q.Event? && q.key == r.key ensures q == r {
      var j :| 0 <= j < |log| && log[j] == q;
      assert SameId(log[i], log[j]) && SameId(log[j], log[i]);
    }
  }

  lemma CheckpointWrites(runId: string, s: Sys, log: Log, key: Key, payload: Payload)
    requires LogSound(runId, s.graph.def, log) && Event(key, payload) in log
    requires ForwardInv(s.graph) && s.graph.runId == runId
    requires AllBehind(log, Save(s)) && Bounded(key, Save(s))
    requires if key.AtLength? then log[|log| - 1] == Event(key, payload) && key.to == s.status
             else s.status == StatusAt(log)
    ensures var w := Write(log, Checkpoint(key, Save(s)));
            && (Unsaved(log, key) ==> w == Some(log + [Checkpoint(key, Save(s))]))
            && (w.Some? ==> LogSound(runId, s.graph.def, w.value) && AllBehind(w.value, Save(s))
                            && (w.value == log || w.value == log + [Checkpoint(key, Save(s))])
                            && (!key.AtLength? || w.value != log ==> StatusAt(w.value) == s.status))
  {
    var r := Checkpoint(key, Save(s));
    WriteKeeps(log, r);
    assert Unsaved(log, key) ==> !Taken(log, r);
    if !Taken(log, r) {
      LastOf(log, r);
      var longer := log + [r];
      assert longer[..|log|] == log && longer[..|log| + 1] == longer;
      assert GraphOf(s.graph.def, ToDict(s.graph)) == s.graph;
      assert AllBehind(longer, Save(s));
      assert SoundAt(runId, s.graph.def, longer, |log|);
      OneMoreSound(runId, s.graph.def, log, r);
    } else {
      assert Write(log, r).Some? ==> r in log;
    }
  }

  /** The memory has just moved on and its record is about to be written. */
  ghost predicate Moving(runId: string, s: Sys, key: Key, payload: Payload) {
    && LogSound(runId, s.graph.def, s.log) && ForwardInv(s.graph) && s.graph.runId == runId
    && AllBehind(s.log, Save(s)) && Bounded(key, Save(s)) && Fits(s.log, s.status, key, payload)
  }

  /** Appending keeps the history sound whether or not it is refused; with an id not
      yet checkpointed it is refused exactly over a clashing event, and otherwise
      leaves everything saved. */
  lemma AppendSound(runId: string, s: Sys, key: Key, payload: Payload)
    requires Moving(runId, s, key, payload)
    ensures var o := Append(s, key, payload);
            && o.sys == s.(log := o.sys.log) && s.log <= o.sys.log
            && LiveSound(runId, o.sys)
            && (Unsaved(s.log, key) ==> (o.error == None <==> !Clashes(s.log, key, payload)))
            && (o.error == None && Unsaved(s.log, key) ==> o.sys.log[|o.sys.log| - 1] == Checkpoint(key, Save(s)))
            && (key.AtLength? ==> o.error == None && Unsaved(s.log, key))
            && (o.error == None || o.error == Some(IdempotencyError))
  {
    var def := s.graph.def;
    EventWrites(runId, def, s.log, s.status, key, payload);
    if key.AtLength? { LengthIsFresh(runId, def, s.log, key); }
    var w := Write(s.log, Event(key, payload));
    if w.Some? {
      assert Event(key, payload) in w.value;
      assert Unsaved(s.log, key) ==> Unsaved(w.value, key);
      CheckpointWrites(runId, s, w.value, key, payload);
    }
  }

  /** Every checkpoint an append adds saves the state in memory. */
  lemma AppendSaves(s: Sys, key: Key, payload: Payload)
    ensures var o := Append(s, key, payload);
            && s.log <= o.sys.log && o.sys == s.(log := o.sys.log)
            && forall i | |s.log| <= i < |o.sys.log| && o.sys.log[i].Checkpoint? :: o.sys.log[i].state == Save(s)
  {}

  // ---------- what a lifecycle call does to a graph ----------

  lemma ResultCounts(g: Graph, c: Cell, op: Op)
    requires Sound(g, c) && (op.RecordVerification? || op.BeginIntegration? || op.Close? || op.RecordPostReview?)
    ensures var o := ApplyTo(g, c, op);
            && c.cellId in o.graph.cells && |g.events| <= |o.graph.events|
            && (o.error == None ==> |g.events| < |o.graph.events|
                                    && (!op.RecordPostReview? ==> c.revision < o.graph.cells[c.cellId].revision))
  {
    if op.RecordVerification? && g.def.KindOf(c.phase) == Implementation {
      var c' := c.(verificationPassed := true);
      TransitionEnters(Put(g, c', "verification.recorded"), c', "verified", PostReview);
    } else if op.BeginIntegration? && g.def.KindOf(c.phase) == Children {
      TransitionEnters(g, c, "integrated", Integration);
    } else if op.Close? && g.def.KindOf(c.phase) == PostReview {
      TransitionEnters(g, c, "accepted", Closed);
    }
  }

  lemma IntegrationCounts(g: Graph, c: Cell, op: Op)
    requires Sound(g, c) && op.RecordIntegration? && g.def.KindOf(c.phase) != Children
    ensures var o := ApplyTo(g, c, op);
            && c.cellId in o.graph.cells && |g.events| <= |o.graph.events|
            && (o.error == None ==> |g.events| < |o.graph.events| && c.revision < o.graph.cells[c.cellId].revision)
  {
    if g.def.KindOf(c.phase) == Integration {
      var c' := c.(integrationPassed := true);
      TransitionEnters(Put(g, c', "verification.recorded"), c', "verified", PostReview);
    }
  }

  lemma EarlyCounts(g: Graph, c: Cell, op: Op)
    requires Sound(g, c) && (op.AcceptContract? || op.FreezeTests? || op.RecordPlan?)
    ensures var o := ApplyTo(g, c, op);
            && c.cellId in o.graph.cells && |g.events| <= |o.graph.events|
            && (o.error == None ==> |g.events| < |o.graph.events| && c.revision < o.graph.cells[c.cellId].revision)
  {
    var kind := g.def.KindOf(c.phase);
    if op.AcceptContract? && kind == Contract {
      TransitionEnters(g, c, "accepted", Tests);
    } else if op.FreezeTests? && kind == Tests {
      TransitionEnters(Put(g, Frozen(c, op.basis), "tests.frozen"), Frozen(c, op.basis), "frozen", Plan);
    } else if op.RecordPlan? && kind == Plan {
      var c' := c.(planDigest := Some(op.planDigest), responsibilities := op.responsibilities);
      TransitionEnters(Put(g, c', "plan.recorded"), c', "planned", PreReview);
    }
  }

  lemma ReviewCounts(g: Graph, c: Cell, op: Op)
    requires Sound(g, c) && op.RecordPreReview?
    ensures var o := ApplyTo(g, c, op);
            && c.cellId in o.graph.cells && |g.events| <= |o.graph.events|
            && (o.error == None ==> |g.events| < |o.graph.events| && c.revision < o.graph.cells[c.cellId].revision)
  {
    if g.def.KindOf(c.phase) == PreReview {
      var c' := c.(preReviewAccepted := true, leaf := Some(op.leaf), seams := op.seams);
      TransitionEnters(Put(g, c', "pre_review.recorded"), c', if op.leaf then "leaf" else "composite",
                       if op.leaf then Implementation else Children);
    }
  }

  ghost function KeyIn(s: Sys, op: Op): Key
    requires Offered(op)
  {
    KeyOf(op, Apply(s.graph, op).graph)
  }

  ghost function ContentIn(s: Sys, op: Op): Payload
    requires Offered(op)
  {
    ContentOf(op, s.graph, Apply(s.graph, op).graph)
  }

  /** One record per call: everything but a split, and but an integration result that
      would begin integration. */
  predicate Single(g: Graph, op: Op) {
    Offered(op) && !op.Decompose? && (op.RecordIntegration? && op.id in g.cells ==> g.Kind(op.id) != Children)
  }

  /** A recorded call names its Cell at a revision the graph before had not reached,
      except that a post-review stays at the revision it was at. */
  lemma CallCounts(g: Graph, op: Op)
    requires Inv(g) && Single(g, op)
    ensures var o := Apply(g, op);
            && |g.events| <= |o.graph.events|
            && (o.error.Some? ==> o.graph == g)
            && (o.error == None ==>
                  && op.id in o.graph.cells && |g.events| < |o.graph.events|
                  && (op.id in g.cells && !op.RecordPostReview? ==>
                      g.cells[op.id].revision < o.graph.cells[op.id].revision))
  {
    if Apply(g, op).error.Some? { RefusalChangesNothing(g, op); }
    if !op.CreateRoot? && op.id in g.cells {
      assert ConsistentAt(g, op.id);
      var c := g.cells[op.id];
      if op.AcceptContract? || op.FreezeTests? || op.RecordPlan? {
        EarlyCounts(g, c, op);
      } else if op.RecordPreReview? {
        ReviewCounts(g, c, op);
      } else if op.RecordIntegration? {
        IntegrationCounts(g, c, op);
      } else {
        ResultCounts(g, c, op);
      }
    }
  }

  lemma StepKeepsNames(g: Graph, op: Op)
    requires Inv(g) && !Backward(op)
    ensures Apply(g, op).graph.runId == g.runId && Apply(g, op).graph.def == g.def
  {
    if !op.CreateRoot? && op.id in g.cells {
      assert ConsistentAt(g, op.id);
      if op.Decompose? {
        if Apply(g, op).error == None { DecomposeEffect(g, g.cells[op.id], op.children); }
      } else {
        CellStepRewrites(g, g.cells[op.id], op);
      }
    }
  }

  // ---------- calls ----------

  /** The last record is a checkpoint of everything in memory. */
  ghost predicate AllSaved(s: Sys) {
    s.log != [] && s.log[|s.log| - 1].Checkpoint? && s.log[|s.log| - 1].state == Save(s)
  }

  lemma NewerKeepsBehind(log: Log, before: SavedState, after: SavedState)
    requires AllBehind(log, before) && |before.graph.events| <= |after.graph.events|
    requires |before.interventions| <= |after.interventions|
    requires forall id | id in before.graph.cells ::
               id in after.graph.cells && before.graph.cells[id].revision <= after.graph.cells[id].revision
    ensures AllBehind(log, after)
  {
    forall i | 0 <= i < |log| && log[i].Checkpoint? ensures Behind(log[i], after) {
      assert Behind(log[i], before);
    }
  }

  /** An id past the state in memory has no checkpoint yet. */
  lemma AheadIsUnsaved(log: Log, state: SavedState, key: Key)
    requires AllBehind(log, state) && !Bounded(key, state)
    ensures Unsaved(log, key)
  {
    forall q | q in log && q.Checkpoint? ensures q.key != key {
      var i :| 0 <= i < |log| && log[i] == q;
      assert Behind(log[i], state);
    }
  }

  /** The graph moved forward; nothing else did. */
  lemma ForwardMoves(runId: string, s: Sys, op: Op)
    requires LiveSound(runId, s) && !Backward(op) && |s.graph.events| <= |Apply(s.graph, op).graph.events|
    ensures var g' := Apply(s.graph, op).graph;
            && ForwardInv(g') && g'.runId == runId && g'.def == s.graph.def && Newer(s.graph, g')
            && AllBehind(s.log, Save(s.(graph := g')))
  {
    StepKeepsNames(s.graph, op);
    StepKeepsInv(s.graph, op);
    ForwardStep(s.graph, op);
    NewerKeepsBehind(s.log, Save(s), Save(s.(graph := Apply(s.graph, op).graph)));
  }

  /** What an accepted single call hands to the append. */
  lemma CallMoves(runId: string, s: Sys, op: Op)
    requires LiveSound(runId, s) && Single(s.graph, op) && s.status == Active && Apply(s.graph, op).error == None
    ensures var o := Apply(s.graph, op);
            var key := KeyOf(op, o.graph);
            && Moving(runId, s.(graph := o.graph), key, ContentOf(op, s.graph, o.graph))
            && o.graph.def == s.graph.def && Newer(s.graph, o.graph)
  {
    CallCounts(s.graph, op);
    ForwardMoves(runId, s, op);
    assert Bounded(KeyOf(op, Apply(s.graph, op).graph), Save(s.(graph := Apply(s.graph, op).graph)));
  }

  /** Nothing but a second post-review can name an id that is checkpointed already. */
  lemma CallIsUnsaved(runId: string, s: Sys, op: Op)
    requires LiveSound(runId, s) && Single(s.graph, op) && !op.RecordPostReview? && Apply(s.graph, op).error == None
    ensures var key := KeyOf(op, Apply(s.graph, op).graph);
            !Bounded(key, Save(s)) && Unsaved(s.log, key)
  {
    CallCounts(s.graph, op);
    AheadIsUnsaved(s.log, Save(s), KeyOf(op, Apply(s.graph, op).graph));
  }

  lemma PerformSound(runId: string, s: Sys, op: Op)
    requires LiveSound(runId, s) && Single(s.graph, op)
    ensures LiveSound(runId, Perform(s, op).sys) && s.log <= Perform(s, op).sys.log
    ensures Perform(s, op).sys.graph.def == s.graph.def && Perform(s, op).sys.roles == s.roles
  {
    if s.status == Active {
      var o := Apply(s.graph, op);
      if o.error.Some? {
        CallCounts(s.graph, op);
      } else {
        CallMoves(runId, s, op);
        AppendSound(runId, s.(graph := o.graph), KeyOf(op, o.graph), ContentOf(op, s.graph, o.graph));
      }
    }
  }

  /** Birth records of Cells the memory has and the log does not know yet. */
  lemma {:induction false} BirthsSound(runId: string, s: Sys, ids: seq<Id>)
    requires LogSound(runId, s.graph.def, s.log) && Held(runId, s)
    requires forall id | id in ids :: id in s.graph.cells
    ensures var o := AppendBirths(s, ids);
            && LiveSound(runId, o.sys) && o.sys == s.(log := o.sys.log) && s.log <= o.sys.log
            && (o.error == None || o.error == Some(IdempotencyError))
            && forall i | |s.log| <= i < |o.sys.log| && o.sys.log[i].Checkpoint? :: o.sys.log[i].state == Save(s)
  {
    if ids != [] {
      var n := |ids| - 1;
      BirthsSound(runId, s, ids[..n]);
      var o := AppendBirths(s, ids[..n]);
      if o.error == None {
        var key := OnCell(CellCreated, ids[n], RevisionIn(s.graph, ids[n]));
        AppendSound(runId, o.sys, key, BirthOf(s.graph, ids[n]));
        AppendSaves(o.sys, key, BirthOf(s.graph, ids[n]));
      }
    }
  }

  /** The graph of an accepted split, not recorded yet. */
  lemma SplitMoves(runId: string, s: Sys, id: Id, children: seq<ChildSpec>)
    requires LiveSound(runId, s) && Apply(s.graph, Op.Decompose(id, children)).error == None
    ensures var g' := Apply(s.graph, Op.Decompose(id, children)).graph;
            && LiveSound(runId, s.(graph := g')) && g'.def == s.graph.def && id in s.graph.cells && id in g'.cells
            && g'.cells[id].revision == s.graph.cells[id].revision + 1
            && ChildrenIn(g', id) == ChildIds(children)
            && (forall k | k in ChildIds(children) :: k in g'.cells && k !in s.graph.cells)
            && |s.graph.events| < |g'.events|
  {
    var op := Op.Decompose(id, children);
    assert ConsistentAt(s.graph, id);
    DecomposeEffect(s.graph, s.graph.cells[id], children);
    BirthsAreEvents(s.graph, s.graph.cells[id], children);
    ForwardMoves(runId, s, op);
    ChildrenAreNew(s.graph, Apply(s.graph, op).graph, s.graph.cells[id], children);
  }

  lemma ChildrenAreNew(g: Graph, g': Graph, c: Cell, children: seq<ChildSpec>)
    requires Decomposed(g, g', c, children) && c.cellId in g.cells
    ensures forall k | k in ChildIds(children) :: k in g'.cells && k !in g.cells
  {
    forall k | k in ChildIds(children) ensures k in g'.cells && k !in g.cells {
      var i :| 0 <= i < |children| && ChildIds(children)[i] == k;
    }
  }

  lemma {:induction false} BirthsAreEvents(g: Graph, c: Cell, children: seq<ChildSpec>)
    ensures |g.events| <= |AddChildren(g, c, children).events|
  {
    if children != [] { BirthsAreEvents(g, c, children[..|children| - 1]); }
  }

  lemma DecomposeSound(runId: string, s: Sys, id: Id, children: seq<ChildSpec>)
    requires LiveSound(runId, s)
    ensures var t := PerformDecompose(s, id, children).sys;
            LiveSound(runId, t) && s.log <= t.log && t.graph.def == s.graph.def && t.roles == s.roles
  {
    var op := Op.Decompose(id, children);
    if s.status == Active {
      if Apply(s.graph, op).error.Some? {
        RefusalChangesNothing(s.graph, op);
      } else {
        SplitMoves(runId, s, id, children);
        var s' := s.(graph := Apply(s.graph, op).graph);
        BirthsSound(runId, s', ChildrenIn(s'.graph, id));
        var born := AppendBirths(s', ChildrenIn(s'.graph, id));
        if born.error == None {
          AppendSound(runId, born.sys, KeyOf(op, s'.graph), ContentOf(op, s.graph, s'.graph));
        }
      }
    }
  }

  lemma IntegrationSound(runId: string, s: Sys, op: Op)
    requires LiveSound(runId, s) && op.RecordIntegration?
    ensures var t := PerformIntegration(s, op.id, op.passed, op.evidence).sys;
            LiveSound(runId, t) && s.log <= t.log && t.graph.def == s.graph.def && t.roles == s.roles
  {
    if s.status != Active {
    } else if op.id in s.graph.cells && s.graph.Kind(op.id) == Children {
      var begin := Op.BeginIntegration(op.id);
      assert ConsistentAt(s.graph, op.id);
      BeginIntegrationRewrites(s.graph, s.graph.cells[op.id]);
      PerformSound(runId, s, begin);
      var begun := Perform(s, begin);
      if begun.error == None {
        BegunIsIntegration(runId, s, op.id);
        PerformSound(runId, begun.sys, op);
      }
    } else {
      PerformSound(runId, s, op);
    }
  }

  lemma BegunIsIntegration(runId: string, s: Sys, id: Id)
    requires LiveSound(runId, s) && Perform(s, Op.BeginIntegration(id)).error == None
    ensures id in Perform(s, Op.BeginIntegration(id)).sys.graph.cells
    ensures Perform(s, Op.BeginIntegration(id)).sys.graph.Kind(id) == Integration
  {
    assert ConsistentAt(s.graph, id);
    BeginIntegrationRewrites(s.graph, s.graph.cells[id]);
    CallMoves(runId, s, Op.BeginIntegration(id));
    var o := Apply(s.graph, Op.BeginIntegration(id));
    AppendSound(runId, s.(graph := o.graph), KeyOf(Op.BeginIntegration(id), o.graph),
                ContentOf(Op.BeginIntegration(id), s.graph, o.graph));
  }

  lemma StatusSound(runId: string, s: Sys, to: RunStatus, reason: string)
    requires LiveSound(runId, s) && to != s.status
    ensures var o := ChangeStatus(s, to, reason);
            && LiveSound(runId, o.sys) && s.log <= o.sys.log && o.error == None
            && o.sys == s.(status := to, log := o.sys.log)
            && o.sys.log[|o.sys.log| - 1] == Checkpoint(AtLength(to, |s.log|), Save(o.sys))
  {
    AppendSound(runId, s.(status := to), AtLength(to, |s.log|), StatusChanged(to, reason));
  }

  lemma InterventionSound(runId: string, s: Sys, i: Intervention)
    requires LiveSound(runId, s)
    ensures LiveSound(runId, Intervene(s, i).sys) && s.log <= Intervene(s, i).sys.log
    ensures Intervene(s, i).sys.graph == s.graph && Intervene(s, i).sys.roles == s.roles
  {
    if i.authorization != "" && i.action != "" && i.reason != "" {
      var s' := s.(interventions := s.interventions + [i]);
      NewerKeepsBehind(s.log, Save(s), Save(s'));
      AppendSound(runId, s', OfOwner(i.authorization, |s'.interventions|), Intervened(i));
    }
  }

  lemma LifecycleSound(runId: string, s: Sys, op: Op)
    requires LiveSound(runId, s)
    ensures var t := SysApply(s, Lifecycle(op)).sys;
            LiveSound(runId, t) && s.log <= t.log && t.graph.def == s.graph.def && t.roles == s.roles
  {
    if op.Decompose? {
      DecomposeSound(runId, s, op.id, op.children);
    } else if op.RecordIntegration? {
      IntegrationSound(runId, s, op);
    } else if Offered(op) {
      PerformSound(runId, s, op);
    }
  }

  predicate ChangesStatus(call: SysOp) {
    call.ParkOp? || call.PauseOp? || call.HaltOp? || call.ResumeOp?
  }

  lemma StatusCall(s: Sys, call: SysOp) returns (refused: bool, to: RunStatus, reason: string)
    requires ChangesStatus(call)
    ensures refused ==> SysApply(s, call).sys == s && SysApply(s, call).error.Some?
    ensures !refused ==> SysApply(s, call) == ChangeStatus(s, to, reason) && to != s.status
  {
    match call
    case ParkOp(r) => refused, to, reason := r == "" || s.status != Active, Parked, r;
    case PauseOp(r) => refused, to, reason := r == "" || s.status != Active, Paused, r;
    case HaltOp(r) => refused, to, reason := r == "" || s.status == Halted, Halted, r;
    case ResumeOp(r) =>
      refused, to, reason := r == "" || (s.status != Paused && s.status != Parked) || !MayResume(s, r), Active, r;
  }

  lemma StatusCallSound(runId: string, s: Sys, call: SysOp)
    requires LiveSound(runId, s) && ChangesStatus(call)
    ensures var o := SysApply(s, call);
            && LiveSound(runId, o.sys) && s.log <= o.sys.log
            && o.sys == s.(status := o.sys.status, log := o.sys.log)
            && (if o.error.Some? then o.sys == s else AllSaved(o.sys))
  {
    var refused, to, reason := StatusCall(s, call);
    if !refused { StatusSound(runId, s, to, reason); }
  }

  /** Every call, accepted or refused, of any live system keeps its history sound. */
  lemma CallSound(runId: string, s: Sys, call: SysOp)
    requires LiveSound(runId, s)
    ensures var t := SysApply(s, call).sys;
            LiveSound(runId, t) && s.log <= t.log && t.graph.def == s.graph.def && t.roles == s.roles
  {
    match call
    case InterveneOp(i) => InterventionSound(runId, s, i);
    case TailOp(name) => AppendSound(runId, s, OfTail(name), TailQuarantined);
    case Lifecycle(op) => LifecycleSound(runId, s, op);
    case _ => StatusCallSound(runId, s, call);
  }

  // ---------- what a call leaves saved ----------

  /** The one call that records twice does so over an intermediate state. */
  ghost function Midway(s: Sys, call: SysOp): Sys {
    if call.Lifecycle? && call.op.RecordIntegration? && call.op.id in s.graph.cells
        && s.graph.Kind(call.op.id) == Children
    then Perform(s, Op.BeginIntegration(call.op.id)).sys
    else SysApply(s, call).sys
  }

  /** Every checkpoint past n saves one of two states. */
  ghost predicate SavesOnly(log: Log, n: nat, a: SavedState, b: SavedState) {
    forall i | n <= i < |log| && log[i].Checkpoint? :: log[i].state == a || log[i].state == b
  }

  lemma PerformSaves(s: Sys, op: Op)
    requires Offered(op)
    ensures var t := Perform(s, op).sys;
            s.log <= t.log && SavesOnly(t.log, |s.log|, Save(t), Save(t))
  {
    if s.status == Active && Apply(s.graph, op).error == None {
      var g' := Apply(s.graph, op).graph;
      AppendSaves(s.(graph := g'), KeyOf(op, g'), ContentOf(op, s.graph, g'));
    }
  }

  lemma DecomposeSaves(runId: string, s: Sys, id: Id, children: seq<ChildSpec>)
    requires LiveSound(runId, s)
    ensures var t := PerformDecompose(s, id, children).sys;
            SavesOnly(t.log, |s.log|, Save(t), Save(t))
  {
    var op := Op.Decompose(id, children);
    if s.status == Active && Apply(s.graph, op).error == None {
      SplitMoves(runId, s, id, children);
      var s' := s.(graph := Apply(s.graph, op).graph);
      BirthsSound(runId, s', ChildrenIn(s'.graph, id));
      var born := AppendBirths(s', ChildrenIn(s'.graph, id));
      AppendSaves(born.sys, KeyOf(op, s'.graph), ContentOf(op, s.graph, s'.graph));
    }
  }

  /** Whatever checkpoints a call adds save its outcome, or the integration it began. */
  lemma CallSaves(runId: string, s: Sys, call: SysOp)
    requires LiveSound(runId, s)
    ensures var t := SysApply(s, call).sys;
            SavesOnly(t.log, |s.log|, Save(t), Save(Midway(s, call)))
  {
    match call
    case Lifecycle(op) =>
      if op.Decompose? {
        DecomposeSaves(runId, s, op.id, op.children);
      } else if op.RecordIntegration? {
        if op.id in s.graph.cells && s.graph.Kind(op.id) == Children {
          var begin := Op.BeginIntegration(op.id);
          PerformSaves(s, begin);
          PerformSaves(Perform(s, begin).sys, op);
        } else {
          PerformSaves(s, op);
        }
      } else if Offered(op) {
        PerformSaves(s, op);
      }
    case InterveneOp(i) =>
      var s' := s.(interventions := s.interventions + [i]);
      AppendSaves(s', OfOwner(i.authorization, |s'.interventions|), Intervened(i));
    case TailOp(name) => AppendSaves(s, OfTail(name), TailQuarantined);
    case _ =>
      var refused, to, reason := StatusCall(s, call);
      AppendSaves(s.(status := to), AtLength(to, |s.log|), StatusChanged(to, reason));
  }

  /** Redoing a post-review is refused once its id is checkpointed: the memory has
      moved past what that checkpoint saved. */
  lemma ReviewAgainIsRefused(runId: string, s: Sys, op: Op)
    requires LiveSound(runId, s) && op.RecordPostReview? && s.status == Active && Apply(s.graph, op).error == None
    ensures var key := KeyOf(op, Apply(s.graph, op).graph);
            Perform(s, op).error == None ==> Unsaved(s.log, key)
  {
    var g' := Apply(s.graph, op).graph;
    var s' := s.(graph := g');
    var key := KeyOf(op, g');
    CallCounts(s.graph, op);
    forall q | q in s.log && q.Checkpoint? ensures q.state != Save(s') {
      var i :| 0 <= i < |s.log| && s.log[i] == q;
      assert Behind(s.log[i], Save(s));
    }
    var w := Write(s.log, Event(key, ContentOf(op, s.graph, g')));
    if w.Some? && !Unsaved(s.log, key) {
      var q :| q in s.log && q.Checkpoint? && q.key == key;
      assert q in w.value && SameId(q, Checkpoint(key, Save(s')));
      assert Checkpoint(key, Save(s')) !in w.value;
    }
  }

  /** An accepted single call is recorded exactly if no event with its id and other
      content is in the log, and nothing was checkpointed under that id before. */
  lemma RecordedIff(runId: string, s: Sys, op: Op)
    requires LiveSound(runId, s) && Single(s.graph, op) && s.status == Active && Apply(s.graph, op).error == None
    ensures var g' := Apply(s.graph, op).graph;
            var key := KeyOf(op, g');
            var o := Perform(s, op);
            && (o.error == None <==> !Clashes(s.log, key, ContentOf(op, s.graph, g')) && Unsaved(s.log, key))
            && (o.error.Some? ==> o.error == Some(IdempotencyError))
            && (o.error == None ==> AllSaved(o.sys))
            && o.sys == s.(graph := g', log := o.sys.log)
            && (!op.RecordPostReview? ==> Unsaved(s.log, key))
  {
    var g' := Apply(s.graph, op).graph;
    CallMoves(runId, s, op);
    AppendRecords(runId, s.(graph := g'), KeyOf(op, g'), ContentOf(op, s.graph, g'));
    assert Perform(s, op) == Append(s.(graph := g'), KeyOf(op, g'), ContentOf(op, s.graph, g'));
    if op.RecordPostReview? { ReviewAgainIsRefused(runId, s, op); } else { CallIsUnsaved(runId, s, op); }
  }

  lemma AppendRecords(runId: string, s: Sys, key: Key, payload: Payload)
    requires Moving(runId, s, key, payload)
    ensures var o := Append(s, key, payload);
            && o.sys == s.(log := o.sys.log)
            && (Unsaved(s.log, key) ==> (o.error == None <==> !Clashes(s.log, key, payload)))
            && (o.error == None && Unsaved(s.log, key) ==> AllSaved(o.sys))
            && (o.error == None || o.error == Some(IdempotencyError))
  {
    AppendSound(runId, s, key, payload);
  }

  /** An append leaves other ids as they were. */
  lemma AppendKeepsOthers(s: Sys, key: Key, payload: Payload, other: Key, content: Payload)
    requires other != key
    ensures var log := Append(s, key, payload).sys.log;
            && (Unsaved(log, other) <==> Unsaved(s.log, other))
            && (Clashes(log, other, content) <==> Clashes(s.log, other, content))
  {
    var log := Append(s, key, payload).sys.log;
    forall q | q in log && q !in s.log ensures q.key == key {}
    forall q | q in s.log ensures q in log {}
  }

  function BirthKey(g: Graph, id: Id): Key {
    OnCell(CellCreated, id, RevisionIn(g, id))
  }

  lemma {:induction false} BirthsKeepOthers(s: Sys, ids: seq<Id>, key: Key, content: Payload)
    requires forall id | id in ids :: key != BirthKey(s.graph, id)
    ensures var log := AppendBirths(s, ids).sys.log;
            && (Unsaved(log, key) <==> Unsaved(s.log, key))
            && (Clashes(log, key, content) <==> Clashes(s.log, key, content))
  {
    if ids != [] {
      var n := |ids| - 1;
      BirthsKeepOthers(s, ids[..n], key, content);
      var o := AppendBirths(s, ids[..n]);
      if o.error == None {
        AppendKeepsOthers(o.sys, BirthKey(s.graph, ids[n]), BirthOf(s.graph, ids[n]), key, content);
      }
    }
  }

  ghost predicate BirthClashes(log: Log, g: Graph, id: Id) {
    Clashes(log, BirthKey(g, id), BirthOf(g, id))
  }

  lemma OneBirthMore(log: Log, g: Graph, ids: seq<Id>, last: Id)
    ensures (forall id | id in ids + [last] :: !BirthClashes(log, g, id)) <==>
              (forall id | id in ids :: !BirthClashes(log, g, id)) && !BirthClashes(log, g, last)
  {
    assert last in ids + [last];
    forall id | id in ids ensures id in ids + [last] {}
  }

  /** The births are all recorded exactly if none of their ids is taken by an event
      with other content. */
  lemma {:induction false} BirthsRecordedIff(runId: string, s: Sys, ids: seq<Id>)
    requires LiveSound(runId, s) && Distinct(ids)
    requires forall id | id in ids :: id in s.graph.cells && Unsaved(s.log, BirthKey(s.graph, id))
    ensures AppendBirths(s, ids).error == None <==> forall id | id in ids :: !BirthClashes(s.log, s.graph, id)
  {
    if ids != [] {
      var n := |ids| - 1;
      var fewer, last := ids[..n], ids[n];
      assert ids == fewer + [last];
      BirthsRecordedIff(runId, s, fewer);
      BirthsSound(runId, s, fewer);
      BirthsKeepOthers(s, fewer, BirthKey(s.graph, last), BirthOf(s.graph, last));
      OneBirthMore(s.log, s.graph, fewer, last);
      var o := AppendBirths(s, fewer);
      if o.error == None {
        AppendSound(runId, o.sys, BirthKey(s.graph, last), BirthOf(s.graph, last));
      }
    }
  }

  /** The graph of an accepted split, with the records it is about to write. */
  lemma SplitIsNew(runId: string, s: Sys, id: Id, children: seq<ChildSpec>)
    requires LiveSound(runId, s) && Apply(s.graph, Op.Decompose(id, children)).error == None
    ensures var op := Op.Decompose(id, children);
            var g' := Apply(s.graph, op).graph;
            && (forall k | k in ChildIds(children) ::
                  Unsaved(s.log, BirthKey(g', k)) && BirthKey(g', k) != KeyOf(op, g'))
            && Unsaved(s.log, KeyOf(op, g')) && Distinct(ChildIds(children))
  {
    var op := Op.Decompose(id, children);
    SplitMoves(runId, s, id, children);
    var g' := Apply(s.graph, op).graph;
    forall k | k in ChildIds(children) ensures Unsaved(s.log, BirthKey(g', k)) {
      AheadIsUnsaved(s.log, Save(s), BirthKey(g', k));
    }
    AheadIsUnsaved(s.log, Save(s), KeyOf(op, g'));
  }

  ghost predicate SplitClashes(log: Log, op: Op, before: Graph, after: Graph)
    requires op.Decompose?
  {
    || (exists k | k in ChildIds(op.children) :: BirthClashes(log, after, k))
    || Clashes(log, KeyOf(op, after), ContentOf(op, before, after))
  }

  /** Births first, then one more event. */
  lemma RecordsAfterBirths(runId: string, s: Sys, ids: seq<Id>, key: Key, content: Payload)
    requires LiveSound(runId, s) && Distinct(ids) && Moving(runId, s, key, content) && Unsaved(s.log, key)
    requires forall id | id in ids :: id in s.graph.cells && Unsaved(s.log, BirthKey(s.graph, id))
    requires forall id | id in ids :: key != BirthKey(s.graph, id)
    ensures var born := AppendBirths(s, ids);
            var o := if born.error.Some? then born else Append(born.sys, key, content);
            && (o.error == None <==>
                  (forall id | id in ids :: !BirthClashes(s.log, s.graph, id)) && !Clashes(s.log, key, content))
            && o.sys == s.(log := o.sys.log)
            && (if o.error == None then AllSaved(o.sys) else o.error == Some(IdempotencyError))
  {
    BirthsRecordedIff(runId, s, ids);
    BirthsSound(runId, s, ids);
    BirthsKeepOthers(s, ids, key, content);
    var born := AppendBirths(s, ids);
    if born.error == None { AppendSound(runId, born.sys, key, content); }
  }

  /** An accepted split is recorded exactly if no birth and not the split itself
      clashes with an event in the log. */
  lemma SplitRecordedIff(runId: string, s: Sys, id: Id, children: seq<ChildSpec>)
    requires LiveSound(runId, s) && s.status == Active && Apply(s.graph, Op.Decompose(id, children)).error == None
    ensures var op := Op.Decompose(id, children);
            var g' := Apply(s.graph, op).graph;
            var o := PerformDecompose(s, id, children);
            && (o.error == None <==> !SplitClashes(s.log, op, s.graph, g'))
            && o.sys == s.(graph := g', log := o.sys.log)
            && (if o.error == None then AllSaved(o.sys) else o.error == Some(IdempotencyError))
  {
    var op := Op.Decompose(id, children);
    SplitMoves(runId, s, id, children);
    SplitIsNew(runId, s, id, children);
    var g' := Apply(s.graph, op).graph;
    RecordsAfterBirths(runId, s.(graph := g'), ChildIds(children), KeyOf(op, g'), ContentOf(op, s.graph, g'));
  }

  /** A run just created. */
  lemma CreatedSound(runId: string, def: Definition, roles: set<string>)
    requires WellShaped(def)
    ensures var s := Created(Fresh(runId, def), roles);
            LiveSound(runId, s) && AllSaved(s) && s.graph.def == def && s.graph.runId == runId
  {
    var s := Created(Fresh(runId, def), roles);
    var log := s.log;
    assert log[..0] == [] && log[..1] == [log[0]] && log[..2] == log;
    assert GraphOf(def, ToDict(s.graph)) == s.graph;
    LastOf([], log[0]);
    LastOf([log[0]], log[1]);
    assert [] + [log[0]] == log[..1] && [log[0]] + [log[1]] == log;
    assert AllBehind(log, Save(s));
    assert SoundAt(runId, def, log, 0) && SoundAt(runId, def, log, 1);
  }
}
