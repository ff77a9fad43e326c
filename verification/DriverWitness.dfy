/** Two driver runs from a fresh root that end for good: one killed inside a split review
    and answered with other seams, one killed between a post-review and its closing. */
module DriverWitness {
  import opened Basics
  import opened Workflow
  import opened GraphInvariant
  import opened Counting
  import opened System
  import opened History
  import opened DriverSteps
  import opened DriverRun
  import opened Recovery
  import opened DriverRecovery
  import opened Redo
  import opened DriverTracks
  import opened DriverBlocks
  import opened DriverEnds
  import opened StandardWorkflow

  const ROOT := "root"

  /** A workflow whose reviews have a role, and no job configured for it. */
  ghost predicate Reviewable(d: Definition) {
    WellShaped(d)
    && forall p | p in d.phases && (d.phases[p].kind == PreReview || d.phases[p].kind == PostReview) ::
         d.phases[p].role.Some?
  }

  lemma StandardIsReviewable()
    ensures Reviewable(STANDARD)
  {
    StandardIsWellShaped();
  }

  function SplitInto(c: Cell, seam: string): RoleResult {
    SplitReview(true, false, [seam], [OnlyChild(c, "child")])
  }

  /** Every role answers what its phase accepts; the first pre-review splits the root in
      the one run, over seams that depend on when it is asked. */
  function Answers(split: bool): Provider {
    (n: nat, request: DriverRequest) =>
      if split && request.kind == PreReview && request.cell.depth == 0 then
        SplitInto(request.cell, if n == 3 then "one" else "other")
      else AnswerOf(request.kind, request.cell)
  }

  function Play(d: Definition, split: bool): Scenario {
    Scenario(Setup("run", d, {}), Answers(split), ROOT, 1)
  }

  lemma PlayStops(d: Definition, split: bool)
    ensures StopsAt(Play(d, split).provider, 1)
  {
    forall n: nat, request: DriverRequest | request.cell.depth >= 1
      ensures !Answers(split)(n, request).SplitReview?
    {
      assert Answers(split)(n, request) == AnswerOf(request.kind, request.cell);
    }
  }

  predicate ReviewRecord(r: Record) {
    r.key.OnCell? && r.key.topic == PostReviewed
  }

  /** The root alone, in a phase of the kind, and nothing cut off in the log. */
  ghost predicate Alone(d: Definition, split: bool, s: Sys, kind: Kind) {
    && Kept(Play(d, split), Live(s)) && Works(s, ROOT) && DriverInv(s.graph) && Clean(s) && AllSaved(s)
    && s.graph.cells.Keys == {ROOT} && s.graph.Kind(ROOT) == kind
    && s.graph.cells[ROOT].obligations == ["o"] && s.graph.cells[ROOT].scope == [ROOT]
    && (forall q | q in s.log :: !ReviewRecord(q))
  }

  lemma AloneIsNext(d: Definition, split: bool, s: Sys, kind: Kind)
    requires Alone(d, split, s, kind) && kind != Children
    ensures NextOf(s.graph) == Ask(ROOT)
  {
    FirstOpenExists(s.graph, ROOT);
    var x :| FirstOpen(s.graph, x);
    NextIsVerdict(s.graph, x);
  }

  lemma NothingNoted(s: Sys, x: Id)
    requires Clean(s) && x in s.graph.cells && forall q | q in s.log :: !ReviewRecord(q)
    ensures Noted(s.log, NextKey(s.graph, x)) == None
  {
    var key := NextKey(s.graph, x);
    forall q | q in s.log && q.Event? ensures q.key != key { assert CleanKey(q.key, Save(s)); }
  }

  lemma RolesAnswer(d: Definition, split: bool, s: Sys)
    requires Reviewable(d) && (Alone(d, split, s, PreReview) || Alone(d, split, s, PostReview))
    ensures ReviewRefusal(s, ROOT) == None
  {
    assert ConsistentAt(s.graph, ROOT);
  }

  /** The one call with which the root moves on. */
  function MoveOf(c: Cell, kind: Kind): Op
    requires OneCall(kind) || kind == PreReview
  {
    if kind == PreReview then Op.RecordPreReview(c.cellId, true, true, [])
    else if kind == Contract then Op.AcceptContract(c.cellId)
    else if kind == Tests then
      Op.FreezeTests(c.cellId, TestBasis("visible", "holdout", map o | o in c.obligations :: ["test"], true))
    else if kind == Plan then Op.RecordPlan(c.cellId, "plan", map o | o in c.obligations :: "owner")
    else if kind == Implementation then Op.RecordVerification(c.cellId, true, ["evidence"])
    else Op.RecordIntegration(c.cellId, true, ["evidence"])
  }

  function Onward(kind: Kind): Kind {
    match kind
    case Contract => Tests
    case Tests => Plan
    case Plan => PreReview
    case PreReview => Implementation
    case _ => PostReview
  }

  lemma EarlyMoveEnters(g: Graph, c: Cell)
    requires Sound(g, c) && g.def.KindOf(c.phase) in {Contract, Tests, Plan}
    requires ApplyTo(g, c, MoveOf(c, g.def.KindOf(c.phase))).error == None
    ensures var g' := ApplyTo(g, c, MoveOf(c, g.def.KindOf(c.phase))).graph;
            c.cellId in g'.cells && g'.def == g.def && g'.Kind(c.cellId) == Onward(g.def.KindOf(c.phase))
  {
    match MoveOf(c, g.def.KindOf(c.phase))
    case AcceptContract(_) => TransitionEnters(g, c, "accepted", Tests);
    case FreezeTests(_, b) => TransitionEnters(Put(g, Frozen(c, b), "tests.frozen"), Frozen(c, b), "frozen", Plan);
    case RecordPlan(_, digest, r) =>
      var c1 := c.(planDigest := Some(digest), responsibilities := r);
      TransitionEnters(Put(g, c1, "plan.recorded"), c1, "planned", PreReview);
    case _ =>
  }

  lemma LateMoveEnters(g: Graph, c: Cell)
    requires Sound(g, c) && g.def.KindOf(c.phase) in {PreReview, Implementation}
    requires ApplyTo(g, c, MoveOf(c, g.def.KindOf(c.phase))).error == None
    ensures var g' := ApplyTo(g, c, MoveOf(c, g.def.KindOf(c.phase))).graph;
            c.cellId in g'.cells && g'.def == g.def && g'.Kind(c.cellId) == Onward(g.def.KindOf(c.phase))
  {
    if g.def.KindOf(c.phase) == PreReview {
      var c1 := c.(preReviewAccepted := true, leaf := Some(true), seams := []);
      TransitionEnters(Put(g, c1, "pre_review.recorded"), c1, "leaf", Implementation);
    } else {
      var c1 := c.(verificationPassed := true);
      TransitionEnters(Put(g, c1, "verification.recorded"), c1, "verified", PostReview);
    }
  }

  lemma MoveEnters(g: Graph, c: Cell)
    requires Sound(g, c) && g.def.KindOf(c.phase) in {Contract, Tests, Plan, PreReview, Implementation}
    requires ApplyTo(g, c, MoveOf(c, g.def.KindOf(c.phase))).error == None
    ensures var g' := ApplyTo(g, c, MoveOf(c, g.def.KindOf(c.phase))).graph;
            c.cellId in g'.cells && g'.def == g.def && g'.Kind(c.cellId) == Onward(g.def.KindOf(c.phase))
  {
    if g.def.KindOf(c.phase) in {Contract, Tests, Plan} { EarlyMoveEnters(g, c); } else { LateMoveEnters(g, c); }
  }

  /** The answered action is that one call. */
  lemma AnswerIsMove(s: Sys, x: Id)
    requires s.status == Active && x in s.graph.cells && s.graph.cells[x].cellId == x
    requires OneCall(s.graph.Kind(x)) || s.graph.Kind(x) == PreReview
    requires Act(s, x, s.graph.Kind(x), AnswerOf(s.graph.Kind(x), s.graph.cells[x])).error == None
    ensures var kind := s.graph.Kind(x);
            Act(s, x, kind, AnswerOf(kind, s.graph.cells[x])) == Perform(s, MoveOf(s.graph.cells[x], kind))
  {
    var kind := s.graph.Kind(x);
    var result := AnswerOf(kind, s.graph.cells[x]);
    if kind == PreReview {
      assert Act(s, x, kind, result) == ActPreReview(s, x, true, [], []);
    } else {
      ActIsCall(s, x, result);
    }
  }

  lemma MoveOnGraph(g: Graph, x: Id)
    requires Inv(g) && x in g.cells && g.Kind(x) in {Contract, Tests, Plan, PreReview, Implementation}
    requires Apply(g, MoveOf(g.cells[x], g.Kind(x))).error == None
    ensures var g' := Apply(g, MoveOf(g.cells[x], g.Kind(x))).graph;
            && g'.cells.Keys == g.cells.Keys && SamePlace(g.cells[x], g'.cells[x])
            && g'.Kind(x) == Onward(g.Kind(x))
  {
    assert ConsistentAt(g, x);
    CellStepRewrites(g, g.cells[x], MoveOf(g.cells[x], g.Kind(x)));
    MoveEnters(g, g.cells[x]);
  }

  lemma PerformedGraph(s: Sys, op: Op)
    requires Offered(op) && Perform(s, op).error == None
    ensures s.status == Active && Apply(s.graph, op).error == None
    ensures Perform(s, op).sys == s.(graph := Apply(s.graph, op).graph, log := Perform(s, op).sys.log)
  {}

  /** What that call makes of the system. */
  lemma MoveKeeps(s: Sys, x: Id)
    requires Inv(s.graph) && x in s.graph.cells
    requires s.graph.Kind(x) in {Contract, Tests, Plan, PreReview, Implementation}
    requires Perform(s, MoveOf(s.graph.cells[x], s.graph.Kind(x))).error == None
    requires forall q | q in s.log :: !ReviewRecord(q)
    ensures var t := Perform(s, MoveOf(s.graph.cells[x], s.graph.Kind(x))).sys;
            && t.status == Active && t.graph.cells.Keys == s.graph.cells.Keys
            && SamePlace(s.graph.cells[x], t.graph.cells[x]) && t.graph.Kind(x) == Onward(s.graph.Kind(x))
            && forall q | q in t.log :: !ReviewRecord(q)
  {
    var op := MoveOf(s.graph.cells[x], s.graph.Kind(x));
    PerformedGraph(s, op);
    MoveOnGraph(s.graph, x);
    MoveIsNoReview(s, op);
  }

  lemma MoveIsNoReview(s: Sys, op: Op)
    requires Offered(op) && !op.RecordPostReview? && forall q | q in s.log :: !ReviewRecord(q)
    ensures forall q | q in Perform(s, op).sys.log :: !ReviewRecord(q)
  {
    ReviewKeys(s, op);
    var log := Perform(s, op).sys.log;
    forall q | q in log ensures !ReviewRecord(q) {
      var i :| 0 <= i < |log| && log[i] == q;
      if i < |s.log| { assert log[i] == s.log[i]; }
    }
  }

  /** A turn of the lone root, not the last and not the split. */
  lemma OneTurn(d: Definition, split: bool, s: Sys, n: nat, kind: Kind)
    requires Reviewable(d) && Alone(d, split, s, kind) && kind in {Contract, Tests, Plan, PreReview, Implementation}
    requires kind == PreReview ==> !split
    ensures Alone(d, split, TurnOn(Play(d, split), s, n), Onward(kind))
  {
    TurnIsMove(d, split, s, n, kind);
    MoveKeeps(s, ROOT);
    TurnGoesWell(d, split, s, n, kind);
  }

  /** What a successful turn keeps. */
  lemma TurnGoesWell(d: Definition, split: bool, s: Sys, n: nat, kind: Kind)
    requires Alone(d, split, s, kind) && StepOf(s, Play(d, split).provider, n).error == None
    ensures var t := TurnOn(Play(d, split), s, n);
            && t == StepOf(s, Play(d, split).provider, n).sys
            && Kept(Play(d, split), Live(t)) && DriverInv(t.graph) && Clean(t) && AllSaved(t)
  {
    var p := Play(d, split);
    PlayStops(d, split);
    EventIsKept(p, Live(s), Turn(n));
    StepTurns(s, p.provider, n, ROOT, 1);
    StepIsSaved(s, p.provider, n);
  }

  lemma TurnIsMove(d: Definition, split: bool, s: Sys, n: nat, kind: Kind)
    requires Reviewable(d) && Alone(d, split, s, kind) && kind in {Contract, Tests, Plan, PreReview, Implementation}
    requires kind == PreReview ==> !split
    ensures var o := StepOf(s, Play(d, split).provider, n);
            o == Perform(s, MoveOf(s.graph.cells[ROOT], kind)) && o.error == None
  {
    AloneIsNext(d, split, s, kind);
    if kind == PreReview { RolesAnswer(d, split, s); }
    MoveSucceeds(s, ROOT);
    AnswersAlike(split, n, s.graph, ROOT);
    StepIsAct(s, Play(d, split).provider, n, ROOT);
  }

  lemma MoveSucceeds(s: Sys, x: Id)
    requires Settled(s) && LiveSound(s.graph.runId, s) && s.status == Active && x in s.graph.cells && Clean(s)
    requires s.graph.Kind(x) in {Contract, Tests, Plan, PreReview, Implementation}
    requires s.graph.Kind(x) == PreReview ==> ReviewRefusal(s, x) == None
    requires forall q | q in s.log :: !ReviewRecord(q)
    ensures var kind := s.graph.Kind(x);
            var o := Act(s, x, kind, AnswerOf(kind, s.graph.cells[x]));
            o == Perform(s, MoveOf(s.graph.cells[x], kind)) && o.error == None
  {
    NothingNoted(s, x);
    assert ConsistentAt(s.graph, x);
    var result := SomeAnswerSucceeds(s, x);
    AnswerIsMove(s, x);
  }

  lemma AnswersAlike(split: bool, n: nat, g: Graph, x: Id)
    requires x in g.cells && (g.Kind(x) == PreReview ==> !split)
    ensures Answers(split)(n, Request(g, x)) == AnswerOf(g.Kind(x), g.cells[x])
  {}

  // ---------- from the start ----------

  ghost function FirstState(d: Definition, refs: References): Sys {
    SysApply(Start(Setup("run", d, {})), Lifecycle(Op.CreateRoot(ROOT, refs, ["o"], []))).sys
  }

  lemma StartsAlone(d: Definition, split: bool, refs: References)
    requires Reviewable(d)
    ensures Alone(d, split, FirstState(d, refs), Contract)
  {
    FreshRootIsKept(Play(d, split), refs, ["o"]);
    FreshRootRuns("run", d, {}, ROOT, refs, ["o"], 1);
    RootIsAlone(d, refs);
  }

  lemma RootIsAlone(d: Definition, refs: References)
    requires WellShaped(d)
    ensures var s := FirstState(d, refs);
            && s.graph.cells.Keys == {ROOT} && s.graph.Kind(ROOT) == Contract
            && s.graph.cells[ROOT].obligations == ["o"] && s.graph.cells[ROOT].scope == [ROOT]
            && forall q | q in s.log :: !ReviewRecord(q)
  {
    MoveIsNoReview(Start(Setup("run", d, {})), Op.CreateRoot(ROOT, refs, ["o"], []));
  }

  function Turns(n: nat): seq<Happening> {
    seq(n, i requires 0 <= i < n => Turn(i))
  }

  function KindAfter(n: nat): Kind {
    match n
    case 0 => Contract
    case 1 => Tests
    case 2 => Plan
    case 3 => PreReview
    case 4 => Implementation
    case _ => PostReview
  }

  lemma KindsAfter(n: nat)
    requires n < 5
    ensures KindAfter(n) in {Contract, Tests, Plan, PreReview, Implementation}
    ensures Onward(KindAfter(n)) == KindAfter(n + 1) && (n < 3 ==> KindAfter(n) != PreReview)
  {}

  lemma TurnsGrow(p: Scenario, s: Sys, n: nat)
    requires RunFrom(p, s, Turns(n)).Live?
    ensures RunFrom(p, s, Turns(n + 1)) == Live(TurnOn(p, RunFrom(p, s, Turns(n)).sys, n))
  {
    assert Turns(n + 1)[..n] == Turns(n);
  }

  lemma {:induction false} TurnsWalk(d: Definition, split: bool, refs: References, n: nat)
    requires Reviewable(d) && n <= if split then 3 else 5
    ensures RunFrom(Play(d, split), FirstState(d, refs), Turns(n)).Live?
    ensures Alone(d, split, RunFrom(Play(d, split), FirstState(d, refs), Turns(n)).sys, KindAfter(n))
  {
    if n == 0 {
      StartsAlone(d, split, refs);
    } else {
      TurnsWalk(d, split, refs, n - 1);
      TurnsGrow(Play(d, split), FirstState(d, refs), n - 1);
      KindsAfter(n - 1);
      OneTurn(d, split, RunFrom(Play(d, split), FirstState(d, refs), Turns(n - 1)).sys, n - 1, KindAfter(n - 1));
    }
  }

  lemma Happens(p: Scenario, s: Sys, events: seq<Happening>, e: Happening)
    ensures RunFrom(p, s, events + [e]) == NextState(p, RunFrom(p, s, events), e)
  {
    assert (events + [e])[..|events|] == events;
  }

  /** Killed at a record of a turn and opened again. */
  lemma DiesAndOpens(p: Scenario, s: Sys, events: seq<Happening>, t: Sys, n: nat, k: nat)
    requires RunFrom(p, s, events) == Live(t) && Kept(p, Live(t)) && StopsAt(p.provider, p.depth)
    requires |t.log| <= k <= |TurnOn(p, t, n).log|
    ensures var cut := TurnOn(p, t, n).log[..k];
            && LastCheckpoint(cut).Some?
            && RunFrom(p, s, events + [DieInTurn(n, k)] + [Happening.Reopen])
               == Live(Recovered(cut, p.setup.def, p.setup.roles))
  {
    Happens(p, s, events, DieInTurn(n, k));
    Happens(p, s, events + [DieInTurn(n, k)], Happening.Reopen);
    EventIsKept(p, Live(t), DieInTurn(n, k));
    ReopenedStands(p, TurnOn(p, t, n).log[..k]);
  }

  // ---------- killed before the closing ----------

  const EVIDENCE := ["evidence"]

  /** The system with the post-review recorded, and its Cell not closed yet. */
  ghost function ReviewedOnly(s: Sys, x: Id): Sys {
    Perform(s, Op.RecordPostReview(x, true, EVIDENCE)).sys
  }

  /** A post-review that goes through is recorded first, and then the closing. */
  lemma ReviewComesFirst(s: Sys, x: Id)
    requires Settled(s) && LiveSound(s.graph.runId, s) && s.status == Active && x in s.graph.cells
    requires s.graph.Kind(x) == PostReview && ReviewRefusal(s, x) == None && forall q | q in s.log :: !ReviewRecord(q)
    ensures var o := ActPostReview(s, x, EVIDENCE);
            o.error == None && ReviewedOnly(s, x).log <= o.sys.log
    ensures Perform(s, Op.RecordPostReview(x, true, EVIDENCE)).error == None
  {
    NothingReviewed(s, x);
    PostReviewIff(s, x, EVIDENCE);
    PostReviewCases(s, x, EVIDENCE);
    PerformHasNoReview(ReviewedOnly(s, x), Op.Close(x));
  }

  /** What the review leaves on disk and in memory. */
  lemma ReviewStands(s: Sys, x: Id)
    requires Settled(s) && LiveSound(s.graph.runId, s) && s.status == Active && x in s.graph.cells
    requires s.graph.Kind(x) == PostReview && Perform(s, Op.RecordPostReview(x, true, EVIDENCE)).error == None
    ensures var s1 := ReviewedOnly(s, x);
            && s.log < s1.log && s1.status == Active && Open(s1.graph, x)
            && OfReview(s1.log[|s1.log| - 1]) && s1.log[|s1.log| - 1].state == Save(s1)
  {
    var op := Op.RecordPostReview(x, true, EVIDENCE);
    PostReviewIsNext(s.graph, x, EVIDENCE);
    ReviewIsUnsaved(s, x);
    PerformedGraph(s, op);
    ReviewIsWritten(s, op);
  }

  lemma ReviewIsUnsaved(s: Sys, x: Id)
    requires Settled(s) && LiveSound(s.graph.runId, s) && s.status == Active && x in s.graph.cells
    requires s.graph.Kind(x) == PostReview && Perform(s, Op.RecordPostReview(x, true, EVIDENCE)).error == None
    ensures Unsaved(s.log, KeyIn(s, Op.RecordPostReview(x, true, EVIDENCE)))
  {
    PostReviewIsNext(s.graph, x, EVIDENCE);
    RecordsIff(s, Op.RecordPostReview(x, true, EVIDENCE));
  }

  lemma ReviewTurn(d: Definition, s: Sys, n: nat)
    requires Reviewable(d) && Alone(d, false, s, PostReview)
    ensures Perform(s, Op.RecordPostReview(ROOT, true, EVIDENCE)).error == None
    ensures ReviewedOnly(s, ROOT).log <= TurnOn(Play(d, false), s, n).log
  {
    AloneIsNext(d, false, s, PostReview);
    RolesAnswer(d, false, s);
    ReviewComesFirst(s, ROOT);
    StepIsAct(s, Play(d, false).provider, n, ROOT);
    AnswersAlike(false, n, s.graph, ROOT);
    ReviewIsAct(s, ROOT);
  }

  lemma ReviewIsAct(s: Sys, x: Id)
    ensures Act(s, x, PostReview, ResultReview(true, EVIDENCE)) == ActPostReview(s, x, EVIDENCE)
  {}

  lemma NothingReviewed(s: Sys, x: Id)
    requires x in s.graph.cells && s.graph.Kind(x) == PostReview && forall q | q in s.log :: !ReviewRecord(q)
    ensures !Unclosed(s, x) && Noted(s.log, ReviewKey(s.graph, x)) == None
  {}

  lemma ReviewIsWritten(s: Sys, op: Op)
    requires op.RecordPostReview? && Perform(s, op).error == None && Unsaved(s.log, KeyIn(s, op))
    ensures var s1 := Perform(s, op).sys;
            s.log < s1.log && s1.log[|s1.log| - 1] == Checkpoint(KeyIn(s, op), Save(s1))
  {
    var g' := Apply(s.graph, op).graph;
    var noted := Write(s.log, Event(KeyIn(s, op), ContentIn(s, op)));
    UnsavedIsWritten(s.log, noted.value, KeyIn(s, op), ContentIn(s, op), Save(s.(graph := g')));
  }

  lemma OpensOnSaved(log: Log, s: Sys, roles: set<string>)
    requires log != [] && log[|log| - 1].Checkpoint? && log[|log| - 1].state == Save(s)
    ensures LastCheckpoint(log).Some?
    ensures Recovered(log, s.graph.def, roles).graph == s.graph
    ensures Recovered(log, s.graph.def, roles).status == s.status
  {
    LastRecord(log);
    assert GraphOf(s.graph.def, ToDict(s.graph)) == s.graph;
  }

  /** The memory opened where only the review was recorded. */
  lemma ReviewOpens(s: Sys, x: Id, roles: set<string>)
    requires Settled(s) && LiveSound(s.graph.runId, s) && s.status == Active && x in s.graph.cells
    requires s.graph.Kind(x) == PostReview && Perform(s, Op.RecordPostReview(x, true, EVIDENCE)).error == None
    ensures var log := ReviewedOnly(s, x).log;
            && LastCheckpoint(log).Some?
            && Works(Recovered(log, s.graph.def, roles), x)
  {
    ReviewStands(s, x);
    StepKeepsNames(s.graph, Op.RecordPostReview(x, true, EVIDENCE));
    PerformedGraph(s, Op.RecordPostReview(x, true, EVIDENCE));
    OpensOnSaved(ReviewedOnly(s, x).log, ReviewedOnly(s, x), roles);
  }

  lemma ReviewIsLast(s: Sys, x: Id, log: Log, k: nat)
    requires Settled(s) && LiveSound(s.graph.runId, s) && s.status == Active && x in s.graph.cells
    requires s.graph.Kind(x) == PostReview && Perform(s, Op.RecordPostReview(x, true, EVIDENCE)).error == None
    requires k <= |log| && log[..k] == ReviewedOnly(s, x).log
    ensures |s.log| < k && LastCheckpoint(log[..k]) == Some(k - 1) && OfReview(log[k - 1])
  {
    ReviewStands(s, x);
    LastOfCut(log, k, ReviewedOnly(s, x).log);
  }

  lemma LastOfCut(log: Log, k: nat, cut: Log)
    requires k <= |log| && log[..k] == cut && cut != [] && cut[|cut| - 1].Checkpoint?
    ensures LastCheckpoint(log[..k]) == Some(k - 1) && log[k - 1] == cut[|cut| - 1]
  {
    LastRecord(cut);
  }

  /** Opened where only the review was recorded. */
  lemma ReviewCutBlocks(p: Scenario, s: Sys, log: Log, k: nat)
    requires Kept(p, Live(s)) && Works(s, p.root) && s.graph.Kind(p.root) == PostReview && TellsReviews(s, log)
    requires Perform(s, Op.RecordPostReview(p.root, true, EVIDENCE)).error == None
    requires k <= |log| && log[..k] == ReviewedOnly(s, p.root).log
    requires LastCheckpoint(log[..k]).Some? && Kept(p, Live(Recovered(log[..k], p.setup.def, p.setup.roles)))
    ensures var t := Recovered(log[..k], p.setup.def, p.setup.roles);
            Works(t, p.root) && NextOf(t.graph) == NextOf(s.graph) && Blocked(t)
  {
    ReviewIsLast(s, p.root, log, k);
    ReviewOpens(s, p.root, p.setup.roles);
    var t := Recovered(log[..k], p.setup.def, p.setup.roles);
    assert log[..k][k - 1] == log[k - 1];
    ReviewCutEnds(s, p.root, log, k, t);
    BlockedExactly(p, t);
  }

  /** Killed between its post-review and its closing, the root can never be closed: the
      run opens active, with an action to take, and no answer to it will do. */
  lemma KilledBeforeClosing(d: Definition, refs: References) returns (k: nat)
    requires Reviewable(d)
    ensures var t := RunFrom(Play(d, false), FirstState(d, refs), Turns(5) + [DieInTurn(5, k)] + [Happening.Reopen]);
            t.Live? && Works(t.sys, ROOT) && NextOf(t.sys.graph) == Ask(ROOT) && Blocked(t.sys)
  {
    var p := Play(d, false);
    TurnsWalk(d, false, refs, 5);
    var s := RunFrom(p, FirstState(d, refs), Turns(5)).sys;
    PlayStops(d, false);
    AloneIsNext(d, false, s, PostReview);
    ReviewTurn(d, s, 5);
    k := |ReviewedOnly(s, ROOT).log|;
    var log := TurnOn(p, s, 5).log;
    assert log[..k] == ReviewedOnly(s, ROOT).log;
    ReviewIsLast(s, ROOT, log, k);
    CutOpens(p, s, 5, k);
    TurnTellsReviews(p, s, 5);
    ReviewCutBlocks(p, s, log, k);
    DiesAndOpens(p, FirstState(d, refs), Turns(5), s, 5, k);
  }

  // ---------- killed inside a split review ----------

  /** The answer splits the Cell, and no record is in its way. */
  lemma SplitIsGood(s: Sys, x: Id, seam: string)
    requires Inv(s.graph) && x in s.graph.cells && s.graph.Kind(x) == PreReview && "child" !in s.graph.cells
    requires Splittable(s.graph.cells[x]) && ReviewRefusal(s, x) == None && seam != ""
    ensures Splits(s, x, SplitInto(s.graph.cells[x], seam))
  {
    var c := s.graph.cells[x];
    assert Placed(s.graph, x);
    SplitIsRehearsed(s.graph, x, [seam], "child");
    assert GoodChildSpec(OnlyChild(c, "child"));
  }

  lemma SplitIsFirst(s: Sys, x: Id, seam: string)
    requires Settled(s) && LiveSound(s.graph.runId, s) && AllSaved(s) && s.status == Active && x in s.graph.cells
    requires s.graph.Kind(x) == PreReview && Splittable(s.graph.cells[x]) && seam != ""
    requires Noted(s.log, NextKey(s.graph, x)) == None
    ensures FirstTime(s.graph.runId, s, Op.RecordPreReview(x, true, false, [seam]))
  {
    var op := Op.RecordPreReview(x, true, false, [seam]);
    ReviewIsNext(s.graph, x, false, [seam]);
    ReviewIsRecorded(s, x, false, [seam]);
    NotedNothing(s.log, KeyIn(s, op), ContentIn(s, op));
  }

  lemma NotedNothing(log: Log, key: Key, payload: Payload)
    requires Noted(log, key) == None
    ensures Event(key, payload) !in log
  {}

  /** The first half of a split is recorded first. */
  lemma HalfComesFirst(s: Sys, x: Id, result: RoleResult)
    requires s.status == Active && Splits(s, x, result)
    ensures Perform(s, ReviewOf(x, result)).sys.log <= Act(s, x, PreReview, result).sys.log
  {
    var op := ReviewOf(x, result);
    PreReviewIsAct(s, x, result);
    SplitHasNoReview(Perform(s, op).sys, x, result.children);
  }

  lemma PreReviewIsAct(s: Sys, x: Id, result: RoleResult)
    requires s.status == Active && Splits(s, x, result)
    ensures var reviewed := Perform(s, ReviewOf(x, result));
            Act(s, x, PreReview, result)
            == if reviewed.error.Some? then reviewed
               else SysApply(reviewed.sys, Lifecycle(Op.Decompose(x, result.children)))
  {
    assert Act(s, x, PreReview, result) == ActPreReview(s, x, false, result.seams, result.children);
  }

  lemma StepBeforeTurn(p: Scenario, s: Sys, n: nat)
    requires Kept(p, Live(s)) && StopsAt(p.provider, p.depth) && Works(s, p.root)
    ensures StepOf(s, p.provider, n).sys.log <= TurnOn(p, s, n).log
  {
    var o := StepOf(s, p.provider, n);
    if o.error.Some? {
      StepSettles(p, s, n);
      ParkStands(o.sys, REFUSAL, p.root, p.depth);
    }
  }

  /** What the splitting role says at the root. */
  lemma SplitAnswers(d: Definition, s: Sys, n: nat)
    requires Reviewable(d) && Alone(d, true, s, PreReview)
    ensures var c := s.graph.cells[ROOT];
            AnswerTo(s, Answers(true), n) == (ROOT, SplitInto(c, if n == 3 then "one" else "other"))
  {
    AloneIsNext(d, true, s, PreReview);
    assert Placed(s.graph, ROOT);
    RootIsShallow(d, s);
  }

  lemma RootIsShallow(d: Definition, s: Sys)
    requires Alone(d, true, s, PreReview)
    ensures s.graph.cells[ROOT].depth == 0
  {
    assert Placed(s.graph, ROOT);
  }

  /** Killed inside a split review, opened again and answered with other seams, the run
      waits for children that will never come. */
  lemma OtherSeamsHappen(d: Definition, refs: References) returns (k: nat)
    requires Reviewable(d)
    ensures var events := Turns(3) + [DieInTurn(3, k)] + [Happening.Reopen] + [Turn(4)];
            var t := RunFrom(Play(d, true), FirstState(d, refs), events);
            t.Live? && NextOf(t.sys.graph) == Undecomposed && DeadEnd(t.sys)
  {
    var p := Play(d, true);
    var first := FirstState(d, refs);
    TurnsWalk(d, true, refs, 3);
    PlayStops(d, true);
    var s := RunFrom(p, first, Turns(3)).sys;
    k := |s.log| + 1;
    SeamsStickHere(d, s);
    DiesAndOpens(p, first, Turns(3), s, 3, k);
    Happens(p, first, Turns(3) + [DieInTurn(3, k)] + [Happening.Reopen], Turn(4));
  }

  /** Both splits are there for the taking. */
  lemma BothSplit(d: Definition, s: Sys)
    requires Reviewable(d) && Alone(d, true, s, PreReview)
    ensures var c := s.graph.cells[ROOT];
            && Splits(s, ROOT, SplitInto(c, "one")) && Splits(s, ROOT, SplitInto(c, "other"))
            && FirstTime("run", s, ReviewOf(ROOT, SplitInto(c, "one")))
  {
    RolesAnswer(d, true, s);
    NothingNoted(s, ROOT);
    SplitIsGood(s, ROOT, "one");
    SplitIsGood(s, ROOT, "other");
    SplitIsFirst(s, ROOT, "one");
  }

  /** The turn begins with the records of the review. */
  lemma SplitTurnBegins(d: Definition, s: Sys)
    requires Reviewable(d) && Alone(d, true, s, PreReview)
    requires Splits(s, ROOT, SplitInto(s.graph.cells[ROOT], "one"))
    ensures Perform(s, ReviewOf(ROOT, SplitInto(s.graph.cells[ROOT], "one"))).sys.log <= TurnOn(Play(d, true), s, 3).log
  {
    var p := Play(d, true);
    PlayStops(d, true);
    AloneIsNext(d, true, s, PreReview);
    SplitAnswers(d, s, 3);
    HalfComesFirst(s, ROOT, SplitInto(s.graph.cells[ROOT], "one"));
    StepIsAct(s, p.provider, 3, ROOT);
    StepBeforeTurn(p, s, 3);
  }

  /** Killed at the review's event, and opened again. */
  lemma SplitCut(d: Definition, s: Sys, log: Log)
    requires Reviewable(d) && Alone(d, true, s, PreReview)
    requires var op := ReviewOf(ROOT, SplitInto(s.graph.cells[ROOT], "one"));
             FirstTime("run", s, op) && Perform(s, op).sys.log <= log
    ensures var op := ReviewOf(ROOT, SplitInto(s.graph.cells[ROOT], "one"));
            |s.log| < |log| && log[..|s.log| + 1] == s.log + [Event(KeyIn(s, op), ContentIn(s, op))]
  {
    CutIsGood(Play(d, true), s, ReviewOf(ROOT, SplitInto(s.graph.cells[ROOT], "one")));
  }

  lemma SeamsStickHere(d: Definition, s: Sys)
    requires Reviewable(d) && Alone(d, true, s, PreReview)
    ensures var p := Play(d, true);
            && |s.log| + 1 <= |TurnOn(p, s, 3).log| && LastCheckpoint(TurnOn(p, s, 3).log[..|s.log| + 1]).Some?
            && Stuck(TurnOn(p, Recovered(TurnOn(p, s, 3).log[..|s.log| + 1], d, {}), 4).graph)
  {
    var p := Play(d, true);
    PlayStops(d, true);
    SplitAnswers(d, s, 3);
    SplitAnswers(d, s, 4);
    BothSplit(d, s);
    SplitTurnBegins(d, s);
    SplitCut(d, s, TurnOn(p, s, 3).log);
    OtherSeamsStick(p, s, 3, 4);
  }
}
