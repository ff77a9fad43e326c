/** Every driver run, crashed and opened again or not, leaves a log in order: its last
    checkpoint has the graph in memory, and what it recorded can be recorded again. */
module DriverTracks {
  import opened Basics
  import opened Workflow
  import opened GraphInvariant
  import opened Counting
  import opened System
  import opened History
  import opened DriverSteps
  import opened DriverRun
  import opened Recovery
  import opened DriverRecovery
  import opened Redo

  // ---------- calls ----------

  /** A tracked system with everything saved is settled. */
  lemma SavedIsSettled(s: Sys)
    requires Tracked(s) && AllSaved(s)
    ensures Settled(s)
  {
    assert LastCheckpoint(s.log) == Some(|s.log| - 1);
    assert GraphOf(s.graph.def, ToDict(s.graph)) == s.graph;
  }

  lemma DrivenIsSingle(g: Graph, op: Op)
    requires Driven(g, op)
    ensures Single(g, op)
  {}

  lemma PerformTracks(s: Sys, op: Op)
    requires Settled(s) && LiveSound(s.graph.runId, s) && s.status == Active && Recordable(s.graph, op)
    ensures var o := Perform(s, op);
            && Tracked(o.sys)
            && (o.error == None || Apply(s.graph, op).error.Some? ==> Settled(o.sys))
  {
    DrivenIsSingle(s.graph, op);
    if Apply(s.graph, op).error.Some? {
      RefusalChangesNothing(s.graph, op);
    } else {
      var g' := Apply(s.graph, op).graph;
      CallFollows(s.graph, op);
      CallReachesBack(s.graph, op);
      AppendTracks(s.(graph := g'), KeyOf(op, g'), ContentOf(op, s.graph, g'));
      RecordedIff(s.graph.runId, s, op);
      if Perform(s, op).error == None { SavedIsSettled(Perform(s, op).sys); }
    }
  }

  lemma {:induction false} BirthsTrack(s: Sys, ids: seq<Id>)
    requires Tracked(s)
    ensures Tracked(AppendBirths(s, ids).sys) && s.log <= AppendBirths(s, ids).sys.log
    ensures AppendBirths(s, ids).sys.graph == s.graph
  {
    if ids != [] {
      var n := |ids| - 1;
      BirthsTrack(s, ids[..n]);
      var o := AppendBirths(s, ids[..n]);
      if o.error == None { AppendTracks(o.sys, BirthKey(s.graph, ids[n]), BirthOf(s.graph, ids[n])); }
    }
  }

  /** What was at most one call ahead of the last checkpoint still is. */
  lemma StaysNear(d: Definition, log: Log, longer: Log, key: Key, payload: Payload)
    requires Ordered(d, log) && Ordered(d, longer) && log <= longer && key.OnCell? && key.topic == CellSplit
    requires LastCheckpoint(log).Some? && NearAt(Event(key, payload), LastGraph(d, log))
    ensures LastCheckpoint(longer).Some? && ReachesBack(Event(key, payload), LastGraph(d, longer))
  {
    var at := LastCheckpoint(log).value;
    assert log[at] == longer[at];
    LastIsLatest(d, longer, at);
    assert LaterAt(LastGraph(d, log), LastGraph(d, longer), key.cellId);
  }

  lemma SplitTracks(s: Sys, x: Id, children: seq<ChildSpec>)
    requires Settled(s) && LiveSound(s.graph.runId, s) && s.status == Active
    ensures var o := PerformDecompose(s, x, children);
            Tracked(o.sys) && (o.error == None ==> Settled(o.sys))
  {
    var op := Op.Decompose(x, children);
    if Apply(s.graph, op).error.Some? {
      RefusalChangesNothing(s.graph, op);
    } else {
      SplitIsTracked(s, x, children);
      SplitRecordedIff(s.graph.runId, s, x, children);
      if PerformDecompose(s, x, children).error == None { SavedIsSettled(PerformDecompose(s, x, children).sys); }
    }
  }

  lemma SplitIsTracked(s: Sys, x: Id, children: seq<ChildSpec>)
    requires Settled(s) && LiveSound(s.graph.runId, s) && s.status == Active
    requires Apply(s.graph, Op.Decompose(x, children)).error == None
    ensures Tracked(PerformDecompose(s, x, children).sys)
  {
    var op := Op.Decompose(x, children);
    var g' := Apply(s.graph, op).graph;
    SplitMoves(s.graph.runId, s, x, children);
    SplitMovesOn(s.graph, x, children);
    var s' := s.(graph := g');
    BirthsTrack(s', ChildrenIn(g', x));
    var born := AppendBirths(s', ChildrenIn(g', x));
    if born.error == None {
      var key, payload := KeyOf(op, g'), ContentOf(op, s.graph, g');
      StaysNear(g'.def, s.log, born.sys.log, key, payload);
      AppendTracks(born.sys, key, payload);
    }
  }

  // ---------- actions ----------

  lemma PreReviewTracks(s: Sys, x: Id, leaf: bool, seams: seq<string>, children: seq<ChildSpec>)
    requires Settled(s) && LiveSound(s.graph.runId, s) && s.status == Active && x in s.graph.cells
    requires Strings(seams) && (!leaf ==> forall i | 0 <= i < |children| :: GoodChildSpec(children[i]))
    ensures Tracked(ActPreReview(s, x, leaf, seams, children).sys)
  {
    var op := Op.RecordPreReview(x, true, leaf, seams);
    if Trial(s.graph, x, leaf, seams, children) == None && ReviewRefusal(s, x) == None {
      if !leaf { SplitsStrings(s.graph, op, children); }
      PerformTracks(s, op);
      var reviewed := Perform(s, op);
      if reviewed.error == None && !leaf {
        PerformSound(s.graph.runId, s, op);
        RecordedIff(s.graph.runId, s, op);
        SplitTracks(reviewed.sys, x, children);
      }
    }
  }

  /** The parts of a Cell some children can split are no empty strings. */
  lemma SplitsStrings(g: Graph, op: Op, children: seq<ChildSpec>)
    requires Inv(g) && op.RecordPreReview? && op.id in g.cells && Apply(g, op).error == None
    requires Apply(Apply(g, op).graph, Op.Decompose(op.id, children)).error == None
    requires forall i | 0 <= i < |children| :: GoodChildSpec(children[i])
    ensures Splittable(g.cells[op.id])
  {
    var c := g.cells[op.id];
    assert ConsistentAt(g, op.id);
    CellStepRewrites(g, c, op);
    assert SamePlace(c, Apply(g, op).graph.cells[op.id]);
    assert GoodChild(c, children[0]) && children[0].scope[..|c.scope|] == c.scope;
    forall o | o in c.obligations ensures o != "" { assert o in Covered(children); }
  }

  lemma PostReviewTracks(s: Sys, x: Id, refs: seq<string>)
    requires Settled(s) && LiveSound(s.graph.runId, s) && s.status == Active && x in s.graph.cells && Strings(refs)
    ensures Tracked(ActPostReview(s, x, refs).sys)
  {
    PostReviewCases(s, x, refs);
    if ReviewRefusal(s, x) == None {
      var op := Op.RecordPostReview(x, true, refs);
      PerformTracks(s, op);
      var o := Perform(s, op);
      if o.error == None {
        PerformSound(s.graph.runId, s, op);
        RecordedIff(s.graph.runId, s, op);
        assert ConsistentAt(s.graph, x);
        PostReviewKeepsCells(s, op);
        PerformTracks(o.sys, Op.Close(x));
      }
    }
  }

  lemma AnswerIsRecordable(g: Graph, x: Id, result: RoleResult)
    requires x in g.cells && Acceptable(g.Kind(x), result) && g.Kind(x) != PreReview && g.Kind(x) != PostReview
    ensures Recordable(g, CallFor(x, g.Kind(x), result))
  {}

  lemma ActTracks(s: Sys, x: Id, result: RoleResult)
    requires Settled(s) && LiveSound(s.graph.runId, s) && s.status == Active && x in s.graph.cells
    ensures Tracked(Act(s, x, s.graph.Kind(x), result).sys)
  {
    var kind := s.graph.Kind(x);
    if !Acceptable(kind, result) {
    } else if kind == PreReview {
      PreReviewTracks(s, x, result.leaf, result.seams, if result.leaf then [] else result.children);
    } else if kind == PostReview {
      PostReviewTracks(s, x, result.refs);
    } else {
      ActIsCall(s, x, result);
      AnswerIsRecordable(s.graph, x, result);
      PerformTracks(s, CallFor(x, kind, result));
    }
  }

  lemma StepTracks(s: Sys, provider: Provider, n: nat)
    requires Settled(s) && LiveSound(s.graph.runId, s) && s.status == Active
    ensures Tracked(StepOf(s, provider, n).sys)
  {
    match NextOf(s.graph)
    case Integrate(x) =>
      StepIsIntegration(s, provider, n, x);
      if x in s.graph.cells { PerformTracks(s, Op.BeginIntegration(x)); }
    case Ask(x) =>
      if x in s.graph.cells {
        StepIsAct(s, provider, n, x);
        ActTracks(s, x, provider(n, Request(s.graph, x)));
      }
    case _ =>
  }

  // ---------- histories ----------

  /** A driver history with its log in order: in memory the graph last saved, which the
      log follows in everything it recorded. */
  ghost predicate Kept(p: Scenario, s: RunState) {
    Good(p, s) && match s
                  case Live(sys) => Settled(sys)
                  case Down(log) => Ordered(p.setup.def, log)
  }

  lemma ParkingSettles(s: Sys, root: Id, depth: nat)
    requires Standing(s, root, depth) && Tracked(s) && s.status == Active
    ensures Settled(ParkRun(s, REFUSAL).sys)
  {
    ParkStands(s, REFUSAL, root, depth);
    AppendTracks(s.(status := Parked), AtLength(Parked, |s.log|), StatusChanged(Parked, REFUSAL));
    SavedIsSettled(ParkRun(s, REFUSAL).sys);
  }

  /** A call that returned has everything saved, so the memory is settled again. */
  lemma StepSettles(p: Scenario, s: Sys, n: nat)
    requires Kept(p, Live(s)) && StopsAt(p.provider, p.depth) && Works(s, p.root)
    ensures var o := StepOf(s, p.provider, n);
            Tracked(o.sys) && Standing(o.sys, p.root, p.depth) && o.sys.status == Active
  {
    StepTracks(s, p.provider, n);
    if DriverInv(s.graph) {
      StepTurns(s, p.provider, n, p.root, p.depth);
    } else {
      StuckStep(s, p.provider, n);
    }
  }

  lemma ActIsSaved(s: Sys, x: Id, kind: Kind, result: RoleResult)
    requires LiveSound(s.graph.runId, s) && Act(s, x, kind, result).error == None
    ensures AllSaved(Act(s, x, kind, result).sys)
  {
    var runId := s.graph.runId;
    if kind == PreReview {
      var review := Lifecycle(Op.RecordPreReview(x, true, result.leaf, result.seams));
      CallSound(runId, s, review);
      SuccessIsSaved(runId, s, review);
      if !result.leaf {
        SuccessIsSaved(runId, SysApply(s, review).sys, Lifecycle(Op.Decompose(x, result.children)));
      }
    } else if kind == PostReview {
      var review := Lifecycle(Op.RecordPostReview(x, true, result.refs));
      CallSound(runId, s, review);
      SuccessIsSaved(runId, SysApply(s, review).sys, Lifecycle(Op.Close(x)));
    } else {
      SuccessIsSaved(runId, s, Lifecycle(CallFor(x, kind, result)));
    }
  }

  lemma StepIsSaved(s: Sys, provider: Provider, n: nat)
    requires LiveSound(s.graph.runId, s) && StepOf(s, provider, n).error == None
    ensures AllSaved(StepOf(s, provider, n).sys)
  {
    match NextOf(s.graph)
    case Integrate(x) => SuccessIsSaved(s.graph.runId, s, Lifecycle(Op.BeginIntegration(x)));
    case Ask(x) =>
      if x in s.graph.cells { ActIsSaved(s, x, s.graph.Kind(x), provider(n, Request(s.graph, x))); }
    case _ =>
  }

  /** After any turn the last checkpoint has the graph in memory. */
  lemma TurnSettles(p: Scenario, s: Sys, n: nat)
    requires Kept(p, Live(s)) && StopsAt(p.provider, p.depth)
    ensures Settled(TurnOn(p, s, n))
  {
    if Works(s, p.root) {
      StepSettles(p, s, n);
      var o := StepOf(s, p.provider, n);
      if o.error.Some? {
        ParkingSettles(o.sys, p.root, p.depth);
      } else {
        StepIsSaved(s, p.provider, n);
        SavedIsSettled(o.sys);
      }
    }
  }

  lemma OwnerSettles(s: Sys, call: SysOp)
    requires Settled(s) && !call.Lifecycle?
    ensures Settled(SysApply(s, call).sys)
  {
    if ChangesStatus(call) {
      var refused, to, reason := StatusCall(s, call);
      if !refused { AppendTracks(s.(status := to), AtLength(to, |s.log|), StatusChanged(to, reason)); }
    } else if call.InterveneOp? {
      var s' := s.(interventions := s.interventions + [call.intervention]);
      AppendTracks(s', OfOwner(call.intervention.authorization, |s'.interventions|), Intervened(call.intervention));
    } else {
      AppendTracks(s, OfTail(call.name), TailQuarantined);
    }
  }

  lemma ReopenedIsSettled(p: Scenario, log: Log)
    requires Kept(p, Down(log))
    ensures LastCheckpoint(log).Some? && Settled(Recovered(log, p.setup.def, p.setup.roles))
  {
    var at := LastCheckpoint(log).value;
    assert OrderedAt(p.setup.def, log, at);
    LaterIsReflexive(LastGraph(p.setup.def, log));
  }

  lemma CutIsOrdered(d: Definition, s: Sys, t: Sys, k: nat)
    requires Settled(s) && Settled(t) && s.graph.def == d == t.graph.def && |s.log| <= k <= |t.log|
    ensures Ordered(d, t.log[..k])
  {
    PrefixOrdered(d, t.log, k);
  }

  lemma EventIsKept(p: Scenario, s: RunState, e: Happening)
    requires Kept(p, s) && StopsAt(p.provider, p.depth)
    ensures Kept(p, NextState(p, s, e))
  {
    EventKeepsGood(p, s, e);
    match s
    case Live(sys) =>
      if e.Turn? || e.DieInTurn? {
        TurnSettles(p, sys, e.n);
        TurnStands(p, sys, e.n);
        var t := TurnOn(p, sys, e.n);
        if e.DieInTurn? && |sys.log| <= e.k <= |t.log| { CutIsOrdered(p.setup.def, sys, t, e.k); }
      } else if (e.Owner? || e.DieInCall?) && !e.call.Lifecycle? {
        OwnerSettles(sys, e.call);
        OwnerKeepsGraph(sys, e.call);
        var t := SysApply(sys, e.call).sys;
        if e.DieInCall? && |sys.log| <= e.k <= |t.log| { CutIsOrdered(p.setup.def, sys, t, e.k); }
      }
    case Down(log) => ReopenedIsSettled(p, log);
  }

  /** However often a driver run crashes, whatever its owner does and whatever its roles
      answer, its log stays in order. */
  lemma {:induction false} EveryHistoryIsKept(p: Scenario, s: Sys, events: seq<Happening>)
    requires Kept(p, Live(s)) && StopsAt(p.provider, p.depth)
    ensures Kept(p, RunFrom(p, s, events))
  {
    if events != [] {
      EveryHistoryIsKept(p, s, events[..|events| - 1]);
      EventIsKept(p, RunFrom(p, s, events[..|events| - 1]), events[|events| - 1]);
    }
  }

  // ---------- the start ----------

  lemma CreatedSettles(g: Graph, roles: set<string>)
    requires g.cells == map[]
    ensures Settled(Created(g, roles))
  {
    var s := Created(g, roles);
    var log := s.log;
    assert GraphOf(g.def, ToDict(g)) == g;
    assert OrderedAt(g.def, log, 0) && OrderedAt(g.def, log, 1);
    LaterIsReflexive(g);
    SavedIsSettled(s);
  }

  lemma RootFollows(g: Graph, op: Op)
    requires WellShaped(g.def) && g.cells == map[] && op.CreateRoot? && Apply(g, op).error == None
    ensures Follows(g, Apply(g, op).graph)
  {
    var g' := Apply(g, op).graph;
    assert g'.cells.Keys == {op.id};
    assert EquippedAt(g', op.id);
    forall id {:trigger LaterAt(g, g', id)} ensures LaterAt(g, g', id) {}
  }

  /** A system just created and given its root is where such a history can start. */
  lemma FreshRootIsKept(p: Scenario, refs: References, obligations: seq<Id>)
    requires WellShaped(p.setup.def) && obligations != [] && Distinct(obligations)
    ensures var create := Lifecycle(Op.CreateRoot(p.root, refs, obligations, []));
            var o := SysApply(Start(p.setup), create);
            o.error == None && Kept(p, Live(o.sys)) && Works(o.sys, p.root) && DriverInv(o.sys.graph) && Clean(o.sys)
  {
    var op := Op.CreateRoot(p.root, refs, obligations, []);
    var s := Start(p.setup);
    FreshRootRuns(p.setup.runId, p.setup.def, p.setup.roles, p.root, refs, obligations, p.depth);
    CreatedSettles(s.graph, s.roles);
    RootFollows(s.graph, op);
    var g' := Apply(s.graph, op).graph;
    AppendTracks(s.(graph := g'), KeyOf(op, g'), ContentOf(op, s.graph, g'));
    var o := SysApply(s, Lifecycle(op));
    SavedIsSettled(o.sys);
    assert GraphOf(p.setup.def, ToDict(o.sys.graph)) == o.sys.graph;
  }
}
