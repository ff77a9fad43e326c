/** Dead ends of the driver last for good, and exactly these crashes lead to them: those
    between the halves of a split review, and those between a post-review and its
    closing. */
module DriverEnds {
  import opened Basics
  import opened Workflow
  import opened GraphInvariant
  import opened Counting
  import opened System
  import opened History
  import opened DriverSteps
  import opened DriverRun
  import opened Recovery
  import opened DriverRecovery
  import opened Redo
  import opened DriverTracks
  import opened DriverBlocks

  // ---------- graphs the driver sees alike ----------

  ghost predicate FaceAt(g: Graph, g': Graph, id: Id)
    requires id in g.cells
  {
    id in g'.cells && Alike(g.cells[id], g'.cells[id])
  }

  /** The same Cells but for accepted post-reviews. */
  ghost predicate SameFace(g: Graph, g': Graph) {
    && g'.def == g.def && g'.cells.Keys == g.cells.Keys
    && forall id {:trigger FaceAt(g, g', id)} | id in g.cells :: FaceAt(g, g', id)
  }

  lemma FaceIsReflexive(g: Graph)
    ensures SameFace(g, g)
  {
    forall id | id in g.cells ensures FaceAt(g, g, id) {}
  }

  lemma FaceIsTransitive(g: Graph, g1: Graph, g2: Graph)
    requires SameFace(g, g1) && SameFace(g1, g2)
    ensures SameFace(g, g2)
  {
    forall id | id in g.cells ensures FaceAt(g, g2, id) { assert FaceAt(g, g1, id) && FaceAt(g1, g2, id); }
  }

  lemma FaceKeepsFirst(g: Graph, g': Graph, x: Id)
    requires SameFace(g, g') && FirstOpen(g, x)
    ensures FirstOpen(g', x)
  {
    assert FaceAt(g, g', x);
    forall y | Open(g', y) ensures Before(g')(x, y) {
      assert FaceAt(g, g', y) && Open(g, y);
      assert Before(g)(x, y);
    }
  }

  /** The driver's next action is the same. */
  lemma FaceKeepsNext(g: Graph, g': Graph, root: Id)
    requires SameFace(g, g') && Attached(g) && Attached(g') && Open(g, root)
    ensures NextOf(g') == NextOf(g) && Open(g', root)
  {
    FirstOpenExists(g, root);
    var x :| FirstOpen(g, x);
    FaceKeepsFirst(g, g', x);
    ChildrenOfFirstAreClosed(g, x);
    ChildrenOfFirstAreClosed(g', x);
    NextIsVerdict(g, x);
    NextIsVerdict(g', x);
    assert FaceAt(g, g', x) && FaceAt(g, g', root);
  }

  // ---------- a turn at a dead end ----------

  /** The checkpoints from n on save graphs the driver sees alike. */
  ghost predicate SavesFace(g: Graph, n: nat, log: Log) {
    forall i | n <= i < |log| && log[i].Checkpoint? ::
      !log[i].key.OnCell? && SameFace(g, GraphOf(g.def, log[i].state.graph))
  }

  lemma RefusedAppend(s: Sys, key: Key, payload: Payload)
    requires Append(s, key, payload).error.Some?
    ensures var log := Append(s, key, payload).sys.log;
            s.log <= log && forall i | |s.log| <= i < |log| :: log[i].Event?
  {}

  /** A refused action at a dead end: no new checkpoint, and at most a post-review marked
      as accepted in memory. */
  ghost predicate Refused(s: Sys, o: SysOutcome) {
    && o.error.Some? && SameFace(s.graph, o.sys.graph) && s.log <= o.sys.log
    && forall i | |s.log| <= i < |o.sys.log| :: o.sys.log[i].Event?
  }

  lemma ReviewAgainStays(s: Sys, x: Id, refs: seq<string>)
    requires Settled(s) && LiveSound(s.graph.runId, s) && s.status == Active && x in s.graph.cells
    requires s.graph.Kind(x) == PostReview && refs != [] && Strings(refs) && (Hindered(s, x) || Unclosed(s, x))
    ensures Refused(s, ActPostReview(s, x, refs))
  {
    PostReviewCases(s, x, refs);
    FaceIsReflexive(s.graph);
    if ReviewRefusal(s, x) == None {
      var op := Op.RecordPostReview(x, true, refs);
      PostReviewIff(s, x, refs);
      PostReviewIsNext(s.graph, x, refs);
      RecordsIff(s, op);
      ReviewKeepsFace(s.graph, x, refs);
      var g' := Apply(s.graph, op).graph;
      RefusedAppend(s.(graph := g'), KeyOf(op, g'), ContentOf(op, s.graph, g'));
    }
  }

  lemma ReviewKeepsFace(g: Graph, x: Id, refs: seq<string>)
    requires Inv(g) && x in g.cells && Apply(g, Op.RecordPostReview(x, true, refs)).error == None
    ensures SameFace(g, Apply(g, Op.RecordPostReview(x, true, refs)).graph)
  {
    var g' := Apply(g, Op.RecordPostReview(x, true, refs)).graph;
    assert ConsistentAt(g, x);
    forall id | id in g.cells ensures FaceAt(g, g', id) {}
  }

  lemma DeadStep(s: Sys, provider: Provider, n: nat)
    requires Settled(s) && LiveSound(s.graph.runId, s) && s.status == Active && DeadEnd(s)
    ensures Refused(s, StepOf(s, provider, n))
  {
    DeadEndRefuses(s, provider, n);
    FaceIsReflexive(s.graph);
    var next := NextOf(s.graph);
    if next.Ask? {
      var result := provider(n, Request(s.graph, next.id));
      StepIsAct(s, provider, n, next.id);
      if Acceptable(s.graph.Kind(next.id), result) { DeadAct(s, next.id, result); }
    }
  }

  lemma DeadAct(s: Sys, x: Id, result: RoleResult)
    requires Settled(s) && LiveSound(s.graph.runId, s) && s.status == Active && x in s.graph.cells
    requires Acceptable(s.graph.Kind(x), result) && (Hindered(s, x) || Unclosed(s, x))
    ensures Refused(s, Act(s, x, s.graph.Kind(x), result))
  {
    if s.graph.Kind(x) == PostReview {
      ReviewAgainStays(s, x, result.refs);
      assert Act(s, x, PostReview, result) == ActPostReview(s, x, result.refs);
    } else {
      HinderedIsRefused(s, x, result.leaf, result.seams, if result.leaf then [] else result.children);
      FaceIsReflexive(s.graph);
    }
  }

  /** The parking after a refused action. */
  lemma RefusalFace(s: Sys, o: SysOutcome, root: Id, depth: nat)
    requires Refused(s, o) && Standing(o.sys, root, depth) && o.sys.status == Active
    ensures var t := ParkRun(o.sys, REFUSAL).sys;
            SameFace(s.graph, t.graph) && s.log <= t.log && SavesFace(s.graph, |s.log|, t.log)
  {
    ParkTells(o.sys, root, depth);
    var log := ParkRun(o.sys, REFUSAL).sys.log;
    assert forall i | |s.log| <= i < |o.sys.log| :: log[i] == o.sys.log[i];
  }

  lemma DeadTurn(p: Scenario, s: Sys, n: nat)
    requires Kept(p, Live(s)) && StopsAt(p.provider, p.depth) && DeadEnd(s)
    ensures var t := TurnOn(p, s, n);
            SameFace(s.graph, t.graph) && s.log <= t.log && SavesFace(s.graph, |s.log|, t.log)
  {
    FaceIsReflexive(s.graph);
    if Works(s, p.root) {
      DeadStep(s, p.provider, n);
      StepSettles(p, s, n);
      RefusalFace(s, StepOf(s, p.provider, n), p.root, p.depth);
    }
  }

  lemma OwnerFace(s: Sys, call: SysOp)
    requires LiveSound(s.graph.runId, s) && !call.Lifecycle?
    ensures var t := SysApply(s, call).sys;
            t.graph == s.graph && s.log <= t.log && SavesFace(s.graph, |s.log|, t.log)
  {
    CallSound(s.graph.runId, s, call);
    CallSaves(s.graph.runId, s, call);
    OwnerKeepsGraph(s, call);
    FaceIsReflexive(s.graph);
    assert GraphOf(s.graph.def, ToDict(s.graph)) == s.graph;
    OwnerKeys(s, call);
  }

  lemma OwnerKeys(s: Sys, call: SysOp)
    requires !call.Lifecycle?
    ensures var log := SysApply(s, call).sys.log;
            s.log <= log ==> forall i | |s.log| <= i < |log| :: !log[i].key.OnCell?
  {}

  // ---------- dead ends last ----------

  /** A later state of the same run, with the same things for the driver to see. */
  ghost predicate Ended(p: Scenario, s: Sys, t: RunState) {
    && Kept(p, t) && s.log <= LogOf(t)
    && match t
       case Live(sys) => SameFace(s.graph, sys.graph)
       case Down(log) => LastCheckpoint(log).Some? && SameFace(s.graph, LastGraph(p.setup.def, log))
  }

  lemma CutHasFace(g: Graph, s: Sys, after: Log, k: nat)
    requires Settled(s) && SameFace(g, s.graph) && s.log <= after && SavesFace(s.graph, |s.log|, after)
    requires |s.log| <= k <= |after|
    ensures LastCheckpoint(after[..k]).Some? && SameFace(g, LastGraph(g.def, after[..k]))
  {
    LastInLonger(s.log, after[..k]);
    var at := LastCheckpoint(after[..k]).value;
    assert after[..k][at] == after[at];
    if at >= |s.log| {
      FaceIsTransitive(g, s.graph, GraphOf(g.def, after[at].state.graph));
    } else {
      assert after[at] == s.log[at];
    }
  }

  lemma EndedStays(p: Scenario, s: Sys, t: Sys, t': Sys)
    requires Ended(p, s, Live(t)) && SameFace(t.graph, t'.graph) && t.log <= t'.log
    requires SavesFace(t.graph, |t.log|, t'.log)
    ensures Kept(p, Live(t')) ==> Ended(p, s, Live(t'))
    ensures forall k | |t.log| <= k <= |t'.log| && Kept(p, Down(t'.log[..k])) :: Ended(p, s, Down(t'.log[..k]))
  {
    FaceIsTransitive(s.graph, t.graph, t'.graph);
    forall k | |t.log| <= k <= |t'.log| && Kept(p, Down(t'.log[..k])) ensures Ended(p, s, Down(t'.log[..k])) {
      CutHasFace(s.graph, t, t'.log, k);
    }
  }

  lemma AlikeIsDead(s: Sys, t: Sys, x: Id)
    requires x in s.graph.cells && FaceAt(s.graph, t.graph, x) && t.graph.def == s.graph.def && t.roles == s.roles
    ensures Hindered(s, x) <==> Hindered(t, x)
    ensures s.log <= t.log && Unclosed(s, x) ==> Unclosed(t, x)
  {
    if s.log <= t.log && Unclosed(s, x) {
      var q :| q in s.log && q.Checkpoint? && q.key == ReviewKey(s.graph, x);
      assert q in t.log && ReviewKey(t.graph, x) == ReviewKey(s.graph, x);
    }
  }

  /** What ended a run stays in it. */
  lemma StillDeadEnd(p: Scenario, s: Sys, t: Sys)
    requires Kept(p, Live(s)) && Open(s.graph, p.root) && DeadEnd(s) && Ended(p, s, Live(t))
    ensures DeadEnd(t) && Open(t.graph, p.root)
  {
    FaceKeepsNext(s.graph, t.graph, p.root);
    var next := NextOf(s.graph);
    if next.Ask? {
      assert FaceAt(s.graph, t.graph, next.id);
      AlikeIsDead(s, t, next.id);
    }
  }

  lemma EndedTurn(p: Scenario, s: Sys, t: Sys, n: nat)
    requires Kept(p, Live(s)) && Open(s.graph, p.root) && DeadEnd(s) && Ended(p, s, Live(t))
    requires StopsAt(p.provider, p.depth)
    ensures var t' := TurnOn(p, t, n);
            && (Kept(p, Live(t')) ==> Ended(p, s, Live(t')))
            && forall k | |t.log| <= k <= |t'.log| && Kept(p, Down(t'.log[..k])) :: Ended(p, s, Down(t'.log[..k]))
  {
    StillDeadEnd(p, s, t);
    DeadTurn(p, t, n);
    EndedStays(p, s, t, TurnOn(p, t, n));
  }

  lemma EndedCall(p: Scenario, s: Sys, t: Sys, call: SysOp)
    requires Ended(p, s, Live(t)) && !call.Lifecycle?
    ensures var t' := SysApply(t, call).sys;
            && (Kept(p, Live(t')) ==> Ended(p, s, Live(t')))
            && forall k | |t.log| <= k <= |t'.log| && Kept(p, Down(t'.log[..k])) :: Ended(p, s, Down(t'.log[..k]))
  {
    OwnerFace(t, call);
    FaceIsReflexive(t.graph);
    EndedStays(p, s, t, SysApply(t, call).sys);
  }

  lemma ReachedIsEnded(p: Scenario, s: Sys, t: Sys, t': Sys, k: nat, next: RunState)
    requires Ended(p, s, Live(t)) && Kept(p, next) && (next == Live(t') || next == CutAt(t, t'.log, k))
    requires Kept(p, Live(t')) ==> Ended(p, s, Live(t'))
    requires forall i | |t.log| <= i <= |t'.log| && Kept(p, Down(t'.log[..i])) :: Ended(p, s, Down(t'.log[..i]))
    ensures Ended(p, s, next)
  {}

  lemma TurnKeepsEnded(p: Scenario, s: Sys, t: Sys, e: Happening)
    requires Kept(p, Live(s)) && Open(s.graph, p.root) && DeadEnd(s) && Ended(p, s, Live(t))
    requires StopsAt(p.provider, p.depth) && (e.Turn? || e.DieInTurn?)
    requires Kept(p, NextState(p, Live(t), e))
    ensures Ended(p, s, NextState(p, Live(t), e))
  {
    EndedTurn(p, s, t, e.n);
    ReachedIsEnded(p, s, t, TurnOn(p, t, e.n), if e.DieInTurn? then e.k else 0, NextState(p, Live(t), e));
  }

  lemma CallKeepsEnded(p: Scenario, s: Sys, t: Sys, e: Happening)
    requires Ended(p, s, Live(t)) && (e.Owner? || e.DieInCall?) && !e.call.Lifecycle?
    requires Kept(p, NextState(p, Live(t), e))
    ensures Ended(p, s, NextState(p, Live(t), e))
  {
    EndedCall(p, s, t, e.call);
    ReachedIsEnded(p, s, t, SysApply(t, e.call).sys, if e.DieInCall? then e.k else 0, NextState(p, Live(t), e));
  }

  lemma OtherKeepsEnded(p: Scenario, s: Sys, t: RunState, e: Happening)
    requires Ended(p, s, t) && Kept(p, NextState(p, t, e))
    requires t.Live? ==> e.Reopen? || ((e.Owner? || e.DieInCall?) && e.call.Lifecycle?)
    ensures Ended(p, s, NextState(p, t, e))
  {}

  lemma EventKeepsEnded(p: Scenario, s: Sys, t: RunState, e: Happening)
    requires Kept(p, Live(s)) && Open(s.graph, p.root) && DeadEnd(s) && Ended(p, s, t)
    requires StopsAt(p.provider, p.depth) && Kept(p, NextState(p, t, e))
    ensures Ended(p, s, NextState(p, t, e))
  {
    if t.Live? && (e.Turn? || e.DieInTurn?) {
      TurnKeepsEnded(p, s, t.sys, e);
    } else if t.Live? && (e.Owner? || e.DieInCall?) && !e.call.Lifecycle? {
      CallKeepsEnded(p, s, t.sys, e);
    } else {
      OtherKeepsEnded(p, s, t, e);
    }
  }

  lemma {:induction false} EndedForGood(p: Scenario, s: Sys, events: seq<Happening>)
    requires Kept(p, Live(s)) && Open(s.graph, p.root) && DeadEnd(s) && StopsAt(p.provider, p.depth)
    ensures Ended(p, s, RunFrom(p, s, events))
  {
    if events == [] {
      FaceIsReflexive(s.graph);
    } else {
      EndedForGood(p, s, events[..|events| - 1]);
      EventIsKept(p, RunFrom(p, s, events[..|events| - 1]), events[|events| - 1]);
      EventKeepsEnded(p, s, RunFrom(p, s, events[..|events| - 1]), events[|events| - 1]);
    }
  }

  lemma {:induction false} ScanMeetsOpen(g: Graph, order: seq<Id>) returns (x: Id)
    requires (forall i | 0 <= i < |order| :: order[i] in g.cells) && !Scan(g, order).Idle?
    ensures Open(g, x)
  {
    x := order[0];
    if g.Kind(x) == Closed { x := ScanMeetsOpen(g, order[1..]); }
  }

  /** Where there is something to do or to wait for, the root is open. */
  lemma RootIsOpen(g: Graph, root: Id)
    requires Attached(g) && IsRoot(g, root) && !NextOf(g).Idle?
    ensures Open(g, root)
  {
    var x := ScanMeetsOpen(g, Schedule(g));
    if g.IsClosed(root) { NothingIsOpen(g, root, x); }
  }

  /** A dead end lasts: whatever the roles answer and the owner does, however often the
      run crashes and is opened and resumed, no answer will ever let the driver go on. */
  lemma DeadEndLasts(p: Scenario, s: Sys, events: seq<Happening>)
    requires Kept(p, Live(s)) && DeadEnd(s) && StopsAt(p.provider, p.depth)
    ensures var t := RunFrom(p, s, events);
            t.Live? ==> DeadEnd(t.sys) && (t.sys.status == Active ==> Blocked(t.sys))
  {
    RootIsOpen(s.graph, p.root);
    EndedForGood(p, s, events);
    var t := RunFrom(p, s, events);
    if t.Live? {
      StillDeadEnd(p, s, t.sys);
      if t.sys.status == Active { BlockedExactly(p, t.sys); }
    }
  }

  // ---------- which crashes lead there ----------

  /** What a turn's records say of its post-review: its checkpoint is under the id of the
      Cell the driver asks about, saves what the driver sees as before, and is followed
      only by checkpoints with the Cell closed. */
  ghost predicate TellsReview(s: Sys, i: nat, log: Log)
    requires i < |log| && log[i].Checkpoint?
  {
    var next := NextOf(s.graph);
    && next.Ask? && next.id in s.graph.cells && s.graph.Kind(next.id) == PostReview
    && log[i].key == ReviewKey(s.graph, next.id) && SameFace(s.graph, GraphOf(s.graph.def, log[i].state.graph))
    && forall j | i < j < |log| && log[j].Checkpoint? ::
         var g := GraphOf(s.graph.def, log[j].state.graph);
         next.id in g.cells && g.cells[next.id].revision > s.graph.cells[next.id].revision
  }

  predicate OfReview(r: Record) {
    r.Checkpoint? && r.key.OnCell? && r.key.topic == PostReviewed
  }

  ghost predicate TellsReviews(s: Sys, log: Log) {
    s.log <= log && forall i {:trigger TellsReview(s, i, log)} | |s.log| <= i < |log| && OfReview(log[i]) ::
      TellsReview(s, i, log)
  }

  ghost predicate NoReview(n: nat, log: Log) {
    forall i | n <= i < |log| :: !OfReview(log[i])
  }

  lemma PerformHasNoReview(s: Sys, op: Op)
    requires Offered(op) && !op.RecordPostReview?
    ensures s.log <= Perform(s, op).sys.log && NoReview(|s.log|, Perform(s, op).sys.log)
  {
    ReviewKeys(s, op);
  }

  lemma SplitHasNoReview(s: Sys, x: Id, children: seq<ChildSpec>)
    ensures s.log <= PerformDecompose(s, x, children).sys.log
    ensures NoReview(|s.log|, PerformDecompose(s, x, children).sys.log)
  {
    var log := PerformDecompose(s, x, children).sys.log;
    SplitKeys(s, x, children, OnCell(PostReviewed, x, 0));
    forall i | |s.log| <= i < |log| ensures !OfReview(log[i]) {
      if log[i].key.OnCell? && log[i].key.topic == PostReviewed { SplitKeys(s, x, children, log[i].key); }
    }
  }

  lemma PreReviewHasNoReview(s: Sys, x: Id, leaf: bool, seams: seq<string>, children: seq<ChildSpec>)
    ensures var log := ActPreReview(s, x, leaf, seams, children).sys.log; s.log <= log && NoReview(|s.log|, log)
  {
    var op := Op.RecordPreReview(x, true, leaf, seams);
    PerformHasNoReview(s, op);
    SplitHasNoReview(Perform(s, op).sys, x, children);
  }

  lemma ActHasNoReview(s: Sys, x: Id, result: RoleResult)
    requires s.status == Active && x in s.graph.cells && s.graph.Kind(x) != PostReview
    ensures var log := Act(s, x, s.graph.Kind(x), result).sys.log; s.log <= log && NoReview(|s.log|, log)
  {
    if Acceptable(s.graph.Kind(x), result) {
      if s.graph.Kind(x) == PreReview {
        PreReviewHasNoReview(s, x, result.leaf, result.seams, if result.leaf then [] else result.children);
      } else {
        ActIsCall(s, x, result);
        PerformHasNoReview(s, CallFor(x, s.graph.Kind(x), result));
      }
    }
  }

  /** The records of a post-review: one checkpoint, of what the driver sees as before. */
  lemma ReviewSaves(s: Sys, x: Id, refs: seq<string>)
    requires Settled(s) && LiveSound(s.graph.runId, s) && s.status == Active && x in s.graph.cells
    requires s.graph.Kind(x) == PostReview && refs != [] && Strings(refs)
    ensures var log := Perform(s, Op.RecordPostReview(x, true, refs)).sys.log;
            && s.log <= log
            && forall i | |s.log| <= i < |log| ::
                 && log[i].key == ReviewKey(s.graph, x)
                 && (log[i].Checkpoint? ==> SameFace(s.graph, GraphOf(s.graph.def, log[i].state.graph)))
  {
    var op := Op.RecordPostReview(x, true, refs);
    PostReviewIsNext(s.graph, x, refs);
    ReviewKeepsFace(s.graph, x, refs);
    ReviewKeys(s, op);
    PerformSaves(s, op);
    var g' := Apply(s.graph, op).graph;
    assert GraphOf(s.graph.def, ToDict(g')) == g';
  }

  /** The records of a post-review and of the closing after it, put together. */
  lemma RecordsTell(s: Sys, x: Id, middle: Log, log: Log, i: nat)
    requires NextOf(s.graph) == Ask(x) && x in s.graph.cells && s.graph.Kind(x) == PostReview
    requires s.log <= middle <= log && UniqueIds(log) && |s.log| <= i < |middle| && log[i].Checkpoint?
    requires forall j | |s.log| <= j < |middle| ::
               && middle[j].key == ReviewKey(s.graph, x)
               && (middle[j].Checkpoint? ==> SameFace(s.graph, GraphOf(s.graph.def, middle[j].state.graph)))
    requires forall j | |middle| <= j < |log| && log[j].Checkpoint? ::
               var g := GraphOf(s.graph.def, log[j].state.graph);
               x in g.cells && g.cells[x].revision > s.graph.cells[x].revision
    ensures TellsReview(s, i, log)
  {
    assert log[i] == middle[i];
    forall j | |s.log| <= j < |middle| && log[j].Checkpoint? ensures j == i {
      assert log[j] == middle[j];
      OneCheckpoint(log, i, j);
    }
  }

  lemma ReviewTells(s: Sys, x: Id, refs: seq<string>)
    requires Settled(s) && LiveSound(s.graph.runId, s) && s.status == Active && NextOf(s.graph) == Ask(x)
    requires x in s.graph.cells && s.graph.Kind(x) == PostReview && refs != [] && Strings(refs)
    requires Perform(s, Op.RecordPostReview(x, true, refs)).error == None
    ensures var s1 := Perform(s, Op.RecordPostReview(x, true, refs)).sys;
            TellsReviews(s, Perform(s1, Op.Close(x)).sys.log)
  {
    var s1 := Perform(s, Op.RecordPostReview(x, true, refs)).sys;
    var log := Perform(s1, Op.Close(x)).sys.log;
    CloseSucceeds(s, x, refs);
    PostReviewIsNext(s.graph, x, refs);
    ReviewSaves(s, x, refs);
    ClosingSaves(s1, x);
    forall i | |s.log| <= i < |log| && OfReview(log[i]) ensures TellsReview(s, i, log) {
      RecordsTell(s, x, s1.log, log, i);
    }
  }

  lemma OneCheckpoint(log: Log, i: nat, j: nat)
    requires UniqueIds(log) && i < |log| && j < |log| && log[i].Checkpoint? && log[j].Checkpoint?
    requires log[i].key == log[j].key
    ensures i == j
  {
    assert SameId(log[i], log[j]) && SameId(log[j], log[i]);
  }

  lemma ClosingSaves(s: Sys, x: Id)
    requires Settled(s) && LiveSound(s.graph.runId, s) && s.status == Active && Repeats(s, Op.Close(x))
    ensures var t := Perform(s, Op.Close(x)).sys;
            && s.log <= t.log && UniqueIds(t.log) && NoReview(|s.log|, t.log)
            && forall j | |s.log| <= j < |t.log| && t.log[j].Checkpoint? ::
                 var g := GraphOf(s.graph.def, t.log[j].state.graph);
                 x in g.cells && g.cells[x].revision == s.graph.cells[x].revision + 1
  {
    var close := Op.Close(x);
    RepeatedSucceeds(s, close);
    CallFollows(s.graph, close);
    PerformSaves(s, close);
    PerformHasNoReview(s, close);
  }

  lemma NothingTold(s: Sys, log: Log)
    requires s.log <= log && NoReview(|s.log|, log)
    ensures TellsReviews(s, log)
  {}

  /** A post-review that was refused wrote no checkpoint. */
  lemma RefusedReviewTells(s: Sys, x: Id, refs: seq<string>)
    requires s.status == Active && Perform(s, Op.RecordPostReview(x, true, refs)).error.Some?
    ensures var log := Perform(s, Op.RecordPostReview(x, true, refs)).sys.log;
            s.log <= log && NoReview(|s.log|, log)
  {
    var op := Op.RecordPostReview(x, true, refs);
    if Apply(s.graph, op).error == None {
      var g' := Apply(s.graph, op).graph;
      RefusedAppend(s.(graph := g'), KeyOf(op, g'), ContentOf(op, s.graph, g'));
    }
  }

  /** The Cell whose post-review was due has moved. */
  ghost predicate PastReview(s: Sys, g: Graph) {
    var next := NextOf(s.graph);
    next.Ask? && next.id in s.graph.cells && s.graph.Kind(next.id) == PostReview ==>
      next.id in g.cells && g.cells[next.id].revision > s.graph.cells[next.id].revision
  }

  /** Only an accepted post-review writes a checkpoint of one, and the closing follows. */
  ghost predicate ActTells(s: Sys, o: SysOutcome) {
    && TellsReviews(s, o.sys.log)
    && (if o.error.Some? then NoReview(|s.log|, o.sys.log) else PastReview(s, o.sys.graph))
  }

  lemma PostReviewActTells(s: Sys, x: Id, refs: seq<string>)
    requires Settled(s) && LiveSound(s.graph.runId, s) && s.status == Active && NextOf(s.graph) == Ask(x)
    requires x in s.graph.cells && s.graph.Kind(x) == PostReview && refs != [] && Strings(refs)
    ensures ActTells(s, ActPostReview(s, x, refs))
  {
    PostReviewCases(s, x, refs);
    if ReviewRefusal(s, x).Some? {
      NothingTold(s, s.log);
    } else if Perform(s, Op.RecordPostReview(x, true, refs)).error.Some? {
      RefusedReviewTells(s, x, refs);
    } else {
      ReviewTells(s, x, refs);
      ReviewPasses(s, x, refs);
    }
  }

  lemma ReviewPasses(s: Sys, x: Id, refs: seq<string>)
    requires Settled(s) && LiveSound(s.graph.runId, s) && s.status == Active && x in s.graph.cells
    requires s.graph.Kind(x) == PostReview && refs != [] && Strings(refs)
    requires Perform(s, Op.RecordPostReview(x, true, refs)).error == None
    ensures var o := Perform(Perform(s, Op.RecordPostReview(x, true, refs)).sys, Op.Close(x));
            && o.error == None && x in o.sys.graph.cells
            && o.sys.graph.cells[x].revision > s.graph.cells[x].revision
  {
    CloseSucceeds(s, x, refs);
    PostReviewIsNext(s.graph, x, refs);
    var s1 := Perform(s, Op.RecordPostReview(x, true, refs)).sys;
    CallFollows(s1.graph, Op.Close(x));
    RepeatedSucceeds(s1, Op.Close(x));
  }

  lemma OtherTells(s: Sys, x: Id, o: SysOutcome)
    requires NextOf(s.graph) == Ask(x) && x in s.graph.cells && s.graph.Kind(x) != PostReview
    requires s.log <= o.sys.log && NoReview(|s.log|, o.sys.log)
    ensures ActTells(s, o)
  {}

  lemma AskTells(s: Sys, x: Id, result: RoleResult)
    requires Settled(s) && LiveSound(s.graph.runId, s) && s.status == Active && NextOf(s.graph) == Ask(x)
    requires x in s.graph.cells
    ensures ActTells(s, Act(s, x, s.graph.Kind(x), result))
  {
    if s.graph.Kind(x) != PostReview {
      ActHasNoReview(s, x, result);
      OtherTells(s, x, Act(s, x, s.graph.Kind(x), result));
    } else if Acceptable(PostReview, result) {
      PostReviewActTells(s, x, result.refs);
      ReviewResult(s, x, result);
    } else {
      NothingTold(s, s.log);
    }
  }

  lemma ReviewResult(s: Sys, x: Id, result: RoleResult)
    requires Acceptable(PostReview, result)
    ensures Act(s, x, PostReview, result) == ActPostReview(s, x, result.refs)
  {}

  lemma StepTellsReviews(s: Sys, provider: Provider, n: nat)
    requires Settled(s) && LiveSound(s.graph.runId, s) && s.status == Active
    ensures ActTells(s, StepOf(s, provider, n))
  {
    match NextOf(s.graph)
    case Integrate(x) =>
      StepIsIntegration(s, provider, n, x);
      PerformHasNoReview(s, Op.BeginIntegration(x));
    case Ask(x) =>
      if x in s.graph.cells {
        StepIsAct(s, provider, n, x);
        AskTells(s, x, provider(n, Request(s.graph, x)));
      }
    case _ =>
  }

  /** A refused action is parked, and has no review. */
  lemma ParkedHasNoReview(s: Sys, o: SysOutcome, root: Id, depth: nat)
    requires s.log <= o.sys.log && NoReview(|s.log|, o.sys.log)
    requires Standing(o.sys, root, depth) && o.sys.status == Active
    ensures var log := ParkRun(o.sys, REFUSAL).sys.log; s.log <= log && NoReview(|s.log|, log)
  {
    ParkTells(o.sys, root, depth);
    var log := ParkRun(o.sys, REFUSAL).sys.log;
    assert forall i | |s.log| <= i < |o.sys.log| :: log[i] == o.sys.log[i];
  }

  lemma TurnTellsReviews(p: Scenario, s: Sys, n: nat)
    requires Kept(p, Live(s)) && StopsAt(p.provider, p.depth) && Works(s, p.root)
    ensures var t := TurnOn(p, s, n);
            TellsReviews(s, t.log) && (NoReview(|s.log|, t.log) || PastReview(s, t.graph))
  {
    StepTellsReviews(s, p.provider, n);
    var o := StepOf(s, p.provider, n);
    if o.error.Some? {
      StepSettles(p, s, n);
      ParkedHasNoReview(s, o, p.root, p.depth);
    }
  }

  // ---------- one reviewed Cell at a time ----------

  /** A Cell reviewed and not closed is the one the driver is at. */
  ghost predicate Sole(s: Sys) {
    forall y {:trigger Unclosed(s, y)} | Unclosed(s, y) :: FirstOpen(s.graph, y)
  }

  /** The cut of a turn, opened. */
  ghost predicate Opens(p: Scenario, s: Sys, log: Log, k: nat, t: Sys) {
    && |s.log| <= k <= |log| && LastCheckpoint(log[..k]).Some?
    && t == Recovered(log[..k], p.setup.def, p.setup.roles)
  }

  /** A Cell found reviewed and not closed was so before the turn, or its review is the
      last checkpoint, and everything else is as it was. */
  lemma FoundUnclosed(p: Scenario, s: Sys, n: nat, k: nat, t: Sys, y: Id)
    requires Kept(p, Live(s)) && StopsAt(p.provider, p.depth) && Works(s, p.root)
    requires Opens(p, s, TurnOn(p, s, n).log, k, t) && Unclosed(t, y)
    ensures var cut := TurnOn(p, s, n).log[..k];
            var at := LastCheckpoint(cut).value;
            || Unclosed(s, y)
            || (at >= |s.log| && OfReview(cut[at]) && TellsReview(s, at, TurnOn(p, s, n).log)
                && cut[at].key == ReviewKey(t.graph, y))
  {
    var log := TurnOn(p, s, n).log;
    var cut := log[..k];
    TurnTellsReviews(p, s, n);
    TurnSettles(p, s, n);
    TurnStands(p, s, n);
    var i := CheckpointUnder(cut, ReviewKey(t.graph, y));
    CutIsLater(p, s, TurnOn(p, s, n), k, t);
    assert LaterAt(s.graph, t.graph, y) && log[i] == cut[i];
    if i < |s.log| {
      OldReview(s, t, i, y);
    } else {
      assert OfReview(log[i]) && TellsReview(s, i, log);
      var at := LastCheckpoint(cut).value;
      assert cut[at] == log[at] && i <= at;
      NewReview(s, log, t, i, at, y);
    }
  }

  /** A review checkpointed in the turn with its Cell still open is the last checkpoint. */
  lemma NewReview(s: Sys, log: Log, t: Sys, i: nat, at: nat, y: Id)
    requires i <= at < |log| && log[i].Checkpoint? && log[at].Checkpoint? && TellsReview(s, i, log)
    requires t.graph == GraphOf(s.graph.def, log[at].state.graph)
    requires y in t.graph.cells && log[i].key == ReviewKey(t.graph, y)
    ensures at == i
  {
    SameCell(s, t, i, log, y);
  }

  lemma SameCell(s: Sys, t: Sys, i: nat, log: Log, y: Id)
    requires i < |log| && log[i].Checkpoint? && TellsReview(s, i, log)
    requires y in t.graph.cells && log[i].key == ReviewKey(t.graph, y)
    ensures NextOf(s.graph) == Ask(y) && y in s.graph.cells
    ensures t.graph.cells[y].revision == s.graph.cells[y].revision
  {}

  /** A checkpoint from before the turn cannot be ahead of the memory it began with. */
  lemma OldReview(s: Sys, t: Sys, i: nat, y: Id)
    requires LiveSound(s.graph.runId, s) && LaterAt(s.graph, t.graph, y) && t.graph.def == s.graph.def
    requires y in t.graph.cells && t.graph.Kind(y) == PostReview
    requires i < |s.log| && s.log[i].Checkpoint? && s.log[i].key == ReviewKey(t.graph, y)
    ensures Unclosed(s, y)
  {
    assert Behind(s.log[i], Save(s));
    assert s.log[i] in s.log && ReviewKey(t.graph, y) == ReviewKey(s.graph, y);
  }

  lemma CheckpointUnder(log: Log, key: Key) returns (i: nat)
    requires !Unsaved(log, key)
    ensures i < |log| && log[i].Checkpoint? && log[i].key == key
  {
    var q :| q in log && q.Checkpoint? && q.key == key;
    i :| 0 <= i < |log| && log[i] == q;
  }

  lemma CutIsLater(p: Scenario, s: Sys, after: Sys, k: nat, t: Sys)
    requires Settled(s) && Settled(after) && s.log <= after.log && Opens(p, s, after.log, k, t)
    requires s.graph.def == p.setup.def == after.graph.def
    ensures Later(s.graph, t.graph)
  {
    var cut := after.log[..k];
    CutIsOrdered(p.setup.def, s, after, k);
    var at := LastCheckpoint(s.log).value;
    assert cut[at] == s.log[at];
    LastIsLatest(p.setup.def, cut, at);
  }

  lemma AskIsFirst(g: Graph, root: Id)
    requires Attached(g) && Open(g, root) && NextOf(g).Ask?
    ensures FirstOpen(g, NextOf(g).id)
  {
    FirstOpenExists(g, root);
    var x :| FirstOpen(g, x);
    ChildrenOfFirstAreClosed(g, x);
    NextIsVerdict(g, x);
  }

  /** Where the driver can go on, no Cell is reviewed and not closed. */
  lemma NoneUnclosed(p: Scenario, s: Sys, y: Id)
    requires Kept(p, Live(s)) && Sole(s) && Works(s, p.root) && !DeadEnd(s)
    ensures !Unclosed(s, y)
  {
    if Unclosed(s, y) { NextIsVerdict(s.graph, y); }
  }

  lemma TurnCutIsSole(p: Scenario, s: Sys, n: nat, k: nat, t: Sys)
    requires Kept(p, Live(s)) && Sole(s) && StopsAt(p.provider, p.depth) && Works(s, p.root) && !DeadEnd(s)
    requires Opens(p, s, TurnOn(p, s, n).log, k, t)
    ensures Sole(t)
  {
    forall y | Unclosed(t, y) ensures FirstOpen(t.graph, y) {
      FoundUnclosed(p, s, n, k, t, y);
      NoneUnclosed(p, s, y);
      AskIsFirst(s.graph, p.root);
      FaceKeepsFirst(s.graph, t.graph, y);
    }
  }

  /** Nothing was reviewed, and the driver sees what it saw. */
  lemma QuietCutIsSole(p: Scenario, s: Sys, after: Log, k: nat, t: Sys)
    requires Settled(s) && Sole(s) && s.graph.def == p.setup.def && s.log <= after
    requires SavesFace(s.graph, |s.log|, after) && Opens(p, s, after, k, t)
    ensures Sole(t)
  {
    FaceIsReflexive(s.graph);
    CutHasFace(s.graph, s, after, k);
    forall y | Unclosed(t, y) ensures FirstOpen(t.graph, y) {
      var i := CheckpointUnder(after[..k], ReviewKey(t.graph, y));
      assert FaceAt(s.graph, t.graph, y) && after[..k][i] == after[i];
      assert s.log[i] in s.log;
      assert Unclosed(s, y);
      FaceKeepsFirst(s.graph, t.graph, y);
    }
  }

  ghost predicate SoleRun(p: Scenario, s: RunState) {
    match s
    case Live(sys) => Sole(sys)
    case Down(log) => LastCheckpoint(log).Some? && Sole(Recovered(log, p.setup.def, p.setup.roles))
  }

  /** Opening a log that was not cut finds what is in memory. */
  lemma WholeIsSole(p: Scenario, t: Sys)
    requires Settled(t) && t.graph.def == p.setup.def
    ensures Sole(t) <==> Sole(Recovered(t.log, p.setup.def, p.setup.roles))
  {
    var r := Recovered(t.log, p.setup.def, p.setup.roles);
    forall y ensures Unclosed(t, y) <==> Unclosed(r, y) {}
  }

  lemma CutsAreSole(p: Scenario, s: Sys, t: Sys)
    requires Settled(t) && s.log <= t.log && t.graph.def == p.setup.def
    requires forall k | |s.log| <= k <= |t.log| :: SoleRun(p, Down(t.log[..k]))
    ensures Sole(t)
  {
    assert t.log[..|t.log|] == t.log;
    assert SoleRun(p, Down(t.log[..|t.log|]));
    WholeIsSole(p, t);
  }

  lemma TurnIsSole(p: Scenario, s: Sys, n: nat)
    requires Kept(p, Live(s)) && Sole(s) && StopsAt(p.provider, p.depth)
    ensures var t := TurnOn(p, s, n);
            && s.log <= t.log && Sole(t)
            && forall k | |s.log| <= k <= |t.log| :: SoleRun(p, Down(t.log[..k]))
  {
    var t := TurnOn(p, s, n);
    TurnSettles(p, s, n);
    TurnStands(p, s, n);
    forall k | |s.log| <= k <= |t.log| ensures SoleRun(p, Down(t.log[..k])) {
      AnyCutIsSole(p, s, n, k);
    }
    CutsAreSole(p, s, t);
  }

  lemma AnyCutIsSole(p: Scenario, s: Sys, n: nat, k: nat)
    requires Kept(p, Live(s)) && Sole(s) && StopsAt(p.provider, p.depth)
    requires s.log <= TurnOn(p, s, n).log && |s.log| <= k <= |TurnOn(p, s, n).log|
    ensures SoleRun(p, Down(TurnOn(p, s, n).log[..k]))
  {
    var log := TurnOn(p, s, n).log;
    LastInLonger(s.log, log[..k]);
    var r := Recovered(log[..k], p.setup.def, p.setup.roles);
    if !Works(s, p.root) || DeadEnd(s) {
      QuietTurn(p, s, n);
      QuietCutIsSole(p, s, log, k, r);
    } else {
      TurnCutIsSole(p, s, n, k, r);
    }
  }

  lemma QuietTurn(p: Scenario, s: Sys, n: nat)
    requires Kept(p, Live(s)) && StopsAt(p.provider, p.depth) && (!Works(s, p.root) || DeadEnd(s))
    ensures SavesFace(s.graph, |s.log|, TurnOn(p, s, n).log)
  {
    if Works(s, p.root) { DeadTurn(p, s, n); }
  }

  lemma OwnerIsSole(p: Scenario, s: Sys, call: SysOp)
    requires Kept(p, Live(s)) && Sole(s) && !call.Lifecycle?
    ensures var t := SysApply(s, call).sys;
            && s.log <= t.log && Sole(t)
            && forall k | |s.log| <= k <= |t.log| :: SoleRun(p, Down(t.log[..k]))
  {
    var t := SysApply(s, call).sys;
    OwnerSettles(s, call);
    OwnerFace(s, call);
    forall k | |s.log| <= k <= |t.log| ensures SoleRun(p, Down(t.log[..k])) {
      LastInLonger(s.log, t.log[..k]);
      QuietCutIsSole(p, s, t.log, k, Recovered(t.log[..k], p.setup.def, p.setup.roles));
    }
    CutsAreSole(p, s, t);
  }

  lemma EventKeepsSole(p: Scenario, s: RunState, e: Happening)
    requires Kept(p, s) && SoleRun(p, s) && StopsAt(p.provider, p.depth)
    ensures SoleRun(p, NextState(p, s, e))
  {
    if s.Live? && (e.Turn? || e.DieInTurn?) {
      TurnIsSole(p, s.sys, e.n);
    } else if s.Live? && (e.Owner? || e.DieInCall?) && !e.call.Lifecycle? {
      OwnerIsSole(p, s.sys, e.call);
    }
  }

  /** In every history at most one Cell is reviewed and not closed, and the driver is at
      it. */
  lemma {:induction false} EveryHistoryIsSole(p: Scenario, s: Sys, events: seq<Happening>)
    requires Kept(p, Live(s)) && Sole(s) && StopsAt(p.provider, p.depth)
    ensures Kept(p, RunFrom(p, s, events)) && SoleRun(p, RunFrom(p, s, events))
  {
    EveryHistoryIsKept(p, s, events);
    if events != [] {
      EveryHistoryIsSole(p, s, events[..|events| - 1]);
      EventKeepsSole(p, RunFrom(p, s, events[..|events| - 1]), events[|events| - 1]);
    }
  }

  /** Such a history can start with any fresh root, and that is no dead end. */
  lemma FreshRootIsSole(p: Scenario, refs: References, obligations: seq<Id>)
    requires WellShaped(p.setup.def) && obligations != [] && Distinct(obligations)
    ensures var s := SysApply(Start(p.setup), Lifecycle(Op.CreateRoot(p.root, refs, obligations, []))).sys;
            Kept(p, Live(s)) && Works(s, p.root) && Sole(s) && !DeadEnd(s)
  {
    var s := SysApply(Start(p.setup), Lifecycle(Op.CreateRoot(p.root, refs, obligations, []))).sys;
    FreshRootIsKept(p, refs, obligations);
    RootIsContract(p, refs, obligations);
    LoneContract(s, p.root);
  }

  lemma LoneContract(s: Sys, root: Id)
    requires s.graph.cells.Keys == {root} && s.graph.Kind(root) == Contract
    ensures Sole(s) && !DeadEnd(s)
  {
    FirstOpenExists(s.graph, root);
    var x :| FirstOpen(s.graph, x);
    NextIsVerdict(s.graph, x);
  }

  lemma RootIsContract(p: Scenario, refs: References, obligations: seq<Id>)
    requires WellShaped(p.setup.def) && obligations != [] && Distinct(obligations)
    ensures var g := SysApply(Start(p.setup), Lifecycle(Op.CreateRoot(p.root, refs, obligations, []))).sys.graph;
            g.cells.Keys == {p.root} && g.Kind(p.root) == Contract
  {}

  // ---------- exactly which crashes end a run ----------

  lemma ReviewCutEnds(s: Sys, root: Id, log: Log, k: nat, t: Sys)
    requires Attached(s.graph) && Open(s.graph, root) && TellsReviews(s, log) && |s.log| <= k <= |log|
    requires LastCheckpoint(log[..k]).Some? && t.log == log[..k] && Attached(t.graph)
    requires var at := LastCheckpoint(log[..k]).value;
             at >= |s.log| && OfReview(log[at]) && t.graph == GraphOf(s.graph.def, log[at].state.graph)
    ensures DeadEnd(t) && NextOf(t.graph) == NextOf(s.graph)
  {
    var cut := log[..k];
    var at := LastCheckpoint(cut).value;
    assert TellsReview(s, at, log) && cut[at] == log[at];
    FaceKeepsNext(s.graph, t.graph, root);
    var x := NextOf(s.graph).id;
    assert FaceAt(s.graph, t.graph, x) && cut[at] in cut && cut[at].key == ReviewKey(t.graph, x);
    assert Unclosed(t, x);
  }

  lemma CutOpens(p: Scenario, s: Sys, n: nat, k: nat)
    requires Kept(p, Live(s)) && StopsAt(p.provider, p.depth) && |s.log| <= k <= |TurnOn(p, s, n).log|
    ensures var cut := TurnOn(p, s, n).log[..k];
            && LastCheckpoint(cut).Some?
            && Kept(p, Live(Recovered(cut, p.setup.def, p.setup.roles)))
  {
    EventIsKept(p, Live(s), DieInTurn(n, k));
    ReopenedStands(p, TurnOn(p, s, n).log[..k]);
    ReopenedIsSettled(p, TurnOn(p, s, n).log[..k]);
  }

  lemma LastRecord(log: Log)
    requires log != [] && log[|log| - 1].Checkpoint?
    ensures LastCheckpoint(log) == Some(|log| - 1)
  {}

  /** Killed right after the checkpoint of its post-review, the run is at a dead end. */
  lemma CutAtReview(p: Scenario, s: Sys, n: nat, k: nat)
    requires Kept(p, Live(s)) && StopsAt(p.provider, p.depth) && Works(s, p.root)
    requires |s.log| <= k <= |TurnOn(p, s, n).log| && LastCheckpoint(TurnOn(p, s, n).log[..k]).Some?
    requires var at := LastCheckpoint(TurnOn(p, s, n).log[..k]).value;
             at >= |s.log| && OfReview(TurnOn(p, s, n).log[at])
    ensures var t := Recovered(TurnOn(p, s, n).log[..k], p.setup.def, p.setup.roles);
            DeadEnd(t) && NextOf(t.graph) == NextOf(s.graph)
  {
    var log := TurnOn(p, s, n).log;
    CutOpens(p, s, n, k);
    TurnTellsReviews(p, s, n);
    ReviewCutEnds(s, p.root, log, k, Recovered(log[..k], p.setup.def, p.setup.roles));
  }

  /** A crash inside a turn of a run that could go on leaves one that cannot, ever,
      exactly if the last checkpoint is the turn's and is that of the first half of a split
      or of a post-review, or the parking after a split review that clashed; or if no role
      can give the review that is due. */
  lemma CrashEndsExactly(p: Scenario, s: Sys, n: nat, k: nat)
    requires Kept(p, Live(s)) && Sole(s) && StopsAt(p.provider, p.depth) && Works(s, p.root) && !DeadEnd(s)
    requires |s.log| <= k <= |TurnOn(p, s, n).log|
    ensures var cut := TurnOn(p, s, n).log[..k];
            && LastCheckpoint(cut).Some?
            && var at := LastCheckpoint(cut).value;
               var t := Recovered(cut, p.setup.def, p.setup.roles);
               DeadEnd(t) <==>
                 || (at >= |s.log|
                     && (Clashed(p, s, n) || HalfOf(p, s, n) == Some(cut[at].key) || OfReview(cut[at])))
                 || Unmanned(t)
  {
    var cut := TurnOn(p, s, n).log[..k];
    CutOpens(p, s, n, k);
    var t := Recovered(cut, p.setup.def, p.setup.roles);
    CrashSticksExactly(p, s, n, k);
    var at := LastCheckpoint(cut).value;
    if at >= |s.log| && OfReview(cut[at]) { CutAtReview(p, s, n, k); }
    if NextOf(t.graph).Ask? && Unclosed(t, NextOf(t.graph).id) {
      FoundUnclosed(p, s, n, k, t, NextOf(t.graph).id);
      NoneUnclosed(p, s, NextOf(t.graph).id);
    }
  }

  /** A turn that was not killed ends a run exactly if it redid a split review with
      another content; or if no role can give the review that is due next. */
  lemma TurnEndsExactly(p: Scenario, s: Sys, n: nat)
    requires Kept(p, Live(s)) && Sole(s) && StopsAt(p.provider, p.depth) && Works(s, p.root) && !DeadEnd(s)
    ensures var t := TurnOn(p, s, n); DeadEnd(t) <==> Clashed(p, s, n) || Unmanned(t)
  {
    var t := TurnOn(p, s, n);
    EventIsKept(p, Live(s), Turn(n));
    TurnSticksExactly(p, s, n);
    if NextOf(t.graph).Ask? && Unclosed(t, NextOf(t.graph).id) { TurnCloses(p, s, n, NextOf(t.graph).id); }
  }

  lemma TurnCloses(p: Scenario, s: Sys, n: nat, y: Id)
    requires Kept(p, Live(s)) && Sole(s) && StopsAt(p.provider, p.depth) && Works(s, p.root) && !DeadEnd(s)
    ensures !Unclosed(TurnOn(p, s, n), y)
  {
    var t := TurnOn(p, s, n);
    if Unclosed(t, y) {
      TurnTellsReviews(p, s, n);
      TurnFoundUnclosed(p, s, n, y);
      NoneUnclosed(p, s, y);
      SameCell(s, t, LastCheckpoint(t.log).value, t.log, y);
    }
  }

  /** The same of a turn that was not killed. */
  lemma TurnFoundUnclosed(p: Scenario, s: Sys, n: nat, y: Id)
    requires Kept(p, Live(s)) && StopsAt(p.provider, p.depth) && Works(s, p.root) && Unclosed(TurnOn(p, s, n), y)
    ensures var t := TurnOn(p, s, n);
            && s.log <= t.log && LastCheckpoint(t.log).Some?
            && var at := LastCheckpoint(t.log).value;
               || Unclosed(s, y)
               || (at >= |s.log| && OfReview(t.log[at]) && TellsReview(s, at, t.log)
                   && t.log[at].key == ReviewKey(t.graph, y))
  {
    var t := TurnOn(p, s, n);
    TurnSettles(p, s, n);
    TurnStands(p, s, n);
    WholeUnclosed(p, t, y);
    FoundUnclosed(p, s, n, |t.log|, Recovered(t.log, p.setup.def, p.setup.roles), y);
  }

  lemma WholeUnclosed(p: Scenario, t: Sys, y: Id)
    requires Settled(t) && t.graph.def == p.setup.def
    ensures t.log[..|t.log|] == t.log && LastCheckpoint(t.log).Some?
    ensures var r := Recovered(t.log, p.setup.def, p.setup.roles);
            r.graph == t.graph && (Unclosed(t, y) <==> Unclosed(r, y))
  {
    assert t.log[..|t.log|] == t.log;
  }

  // ---------- redoing a post-review ----------

  lemma NotedIs(log: Log, key: Key, payload: Payload)
    requires UniqueIds(log) && Event(key, payload) in log
    ensures Noted(log, key) == Some(payload)
  {
    OnlyEventWith(log, Event(key, payload));
    NotedOnly(log, key, payload);
  }

  /** A post-review cut off from its checkpoint can be redone, and its Cell then closes,
      with the same evidence and no other. */
  lemma ReviewRedoneIffSame(p: Scenario, s: Sys, x: Id, evidence: seq<string>, result: RoleResult)
    requires Kept(p, Live(s)) && Works(s, p.root) && NextOf(s.graph) == Ask(x) && !DeadEnd(s)
    requires x in s.graph.cells && s.graph.Kind(x) == PostReview
    requires Event(ReviewKey(s.graph, x), WithEvidence(evidence)) in s.log
    ensures Act(s, x, PostReview, result).error == None <==> Acceptable(PostReview, result) && result.refs == evidence
  {
    NotedIs(s.log, ReviewKey(s.graph, x), WithEvidence(evidence));
    if Acceptable(PostReview, result) {
      PostReviewIff(s, x, result.refs);
      ReviewResult(s, x, result);
    }
  }
}
