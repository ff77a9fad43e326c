/** Driver runs that crash inside any turn, are opened again and go on: what opening
    finds, and exactly when a run gets stuck between the halves of a review. */
module DriverRecovery {
  import opened Basics
  import opened Workflow
  import opened GraphInvariant
  import opened Counting
  import opened System
  import opened History
  import opened DriverSteps
  import opened DriverRun
  import opened Recovery

  // ---------- driver histories ----------

  /** The owner's calls between turns; none of them is a lifecycle call. */
  datatype Happening =
    | Turn(n: nat)
    | Owner(call: SysOp)
    | DieInTurn(n: nat, k: nat)
    | DieInCall(call: SysOp, k: nat)
    | Reopen

  datatype Scenario = Scenario(setup: Setup, provider: Provider, root: Id, depth: nat)

  /** The driver takes a turn only on an active run whose root is open. */
  predicate Works(s: Sys, root: Id) {
    s.status == Active && Open(s.graph, root)
  }

  ghost function TurnOn(p: Scenario, s: Sys, n: nat): Sys {
    if Works(s, p.root) then TurnOf(s, p.provider, n).sys else s
  }

  function CutAt(s: Sys, after: Log, k: nat): RunState {
    if |s.log| <= k <= |after| then Down(after[..k]) else Live(s)
  }

  ghost function NextState(p: Scenario, s: RunState, e: Happening): RunState {
    match (s, e)
    case (Live(sys), Turn(n)) => Live(TurnOn(p, sys, n))
    case (Live(sys), Owner(call)) => if call.Lifecycle? then s else Live(SysApply(sys, call).sys)
    case (Live(sys), DieInTurn(n, k)) => CutAt(sys, TurnOn(p, sys, n).log, k)
    case (Live(sys), DieInCall(call, k)) => if call.Lifecycle? then s else CutAt(sys, SysApply(sys, call).sys.log, k)
    case (Down(log), Reopen) =>
      if Openable(log, p.setup.runId, p.setup.def) then Live(Recovered(log, p.setup.def, p.setup.roles)) else s
    case _ => s
  }

  ghost function RunFrom(p: Scenario, s: Sys, events: seq<Happening>): RunState {
    if events == [] then Live(s) else NextState(p, RunFrom(p, s, events[..|events| - 1]), events[|events| - 1])
  }

  /** The log is sound and its last checkpoint a graph the driver can have left. */
  ghost predicate LogStands(p: Scenario, log: Log) {
    && LogSound(p.setup.runId, p.setup.def, log) && LastCheckpoint(log).Some?
    && Stands(GraphOf(p.setup.def, log[LastCheckpoint(log).value].state.graph), p.root, p.depth)
  }

  ghost predicate Good(p: Scenario, s: RunState) {
    match s
    case Live(sys) =>
      && Standing(sys, p.root, p.depth) && LogStands(p, sys.log)
      && sys.graph.def == p.setup.def && sys.graph.runId == p.setup.runId && sys.roles == p.setup.roles
    case Down(log) => LogStands(p, log)
  }

  lemma CutStands(p: Scenario, log: Log, after: Log, k: nat)
    requires LogStands(p, log) && log <= after && |log| <= k <= |after|
    requires LogSound(p.setup.runId, p.setup.def, after)
    requires SavesStanding(p.setup.def, p.root, p.depth, |log|, after)
    ensures LogStands(p, after[..k])
  {
    PrefixSound(p.setup.runId, p.setup.def, after, k);
    LastInLonger(log, after[..k]);
    var at := LastCheckpoint(after[..k]).value;
    assert after[..k][at] == after[at];
    if at < |log| { assert after[at] == log[at]; }
  }

  lemma TurnStands(p: Scenario, s: Sys, n: nat)
    requires Good(p, Live(s)) && StopsAt(p.provider, p.depth)
    ensures var t := TurnOn(p, s, n);
            && Standing(t, p.root, p.depth) && s.log <= t.log
            && t.graph.def == s.graph.def && t.graph.runId == s.graph.runId && t.roles == s.roles
            && SavesStanding(s.graph.def, p.root, p.depth, |s.log|, t.log)
  {
    if Works(s, p.root) {
      if DriverInv(s.graph) {
        StepTurns(s, p.provider, n, p.root, p.depth);
      } else {
        StuckStep(s, p.provider, n);
      }
      var o := StepOf(s, p.provider, n);
      if o.error.Some? {
        ParkStands(o.sys, REFUSAL, p.root, p.depth);
        SplitFollows(s, o.sys, SysOutcome(ParkRun(o.sys, REFUSAL).sys, None), p.root, p.depth);
      }
    }
  }

  lemma OwnerStands(p: Scenario, s: Sys, call: SysOp)
    requires Good(p, Live(s)) && !call.Lifecycle?
    ensures var t := SysApply(s, call).sys;
            && Standing(t, p.root, p.depth) && s.log <= t.log && t.graph == s.graph && t.roles == s.roles
            && SavesStanding(s.graph.def, p.root, p.depth, |s.log|, t.log)
  {
    CallSound(p.setup.runId, s, call);
    CallSaves(p.setup.runId, s, call);
    OwnerKeepsGraph(s, call);
    SavesOneStanding(s, SysApply(s, call).sys, p.root, p.depth);
  }

  lemma OwnerKeepsGraph(s: Sys, call: SysOp)
    requires !call.Lifecycle?
    ensures SysApply(s, call).sys.graph == s.graph && Midway(s, call) == SysApply(s, call).sys
  {}

  lemma LiveStaysGood(p: Scenario, s: Sys, t: Sys)
    requires Good(p, Live(s)) && Standing(t, p.root, p.depth) && s.log <= t.log
    requires t.graph.def == s.graph.def && t.graph.runId == s.graph.runId && t.roles == s.roles
    requires SavesStanding(s.graph.def, p.root, p.depth, |s.log|, t.log)
    ensures Good(p, Live(t))
    ensures forall k | |s.log| <= k <= |t.log| :: Good(p, Down(t.log[..k]))
  {
    forall k | |s.log| <= k <= |t.log| ensures LogStands(p, t.log[..k]) {
      CutStands(p, s.log, t.log, k);
    }
    assert t.log[..|t.log|] == t.log;
  }

  lemma ReopenedStands(p: Scenario, log: Log)
    requires LogStands(p, log)
    ensures Openable(log, p.setup.runId, p.setup.def)
    ensures Good(p, Live(Recovered(log, p.setup.def, p.setup.roles)))
  {
    SoundLogsOpen(p.setup.runId, p.setup.def, p.setup.roles, log);
    assert SoundAt(p.setup.runId, p.setup.def, log, LastCheckpoint(log).value);
  }

  lemma EventKeepsGood(p: Scenario, s: RunState, e: Happening)
    requires Good(p, s) && StopsAt(p.provider, p.depth)
    ensures Good(p, NextState(p, s, e))
  {
    match s
    case Live(sys) =>
      if e.Turn? || e.DieInTurn? {
        TurnStands(p, sys, e.n);
        LiveStaysGood(p, sys, TurnOn(p, sys, e.n));
      } else if (e.Owner? || e.DieInCall?) && !e.call.Lifecycle? {
        OwnerStands(p, sys, e.call);
        LiveStaysGood(p, sys, SysApply(sys, e.call).sys);
      }
    case Down(log) => ReopenedStands(p, log);
  }

  /** However often a driver run crashes and is opened again, and whatever its owner
      does in between, it stays one the driver knows, in memory and on disk. */
  lemma {:induction false} EveryDriverHistory(p: Scenario, s: Sys, events: seq<Happening>)
    requires Good(p, Live(s)) && StopsAt(p.provider, p.depth)
    ensures Good(p, RunFrom(p, s, events))
  {
    if events != [] {
      EveryDriverHistory(p, s, events[..|events| - 1]);
      EventKeepsGood(p, RunFrom(p, s, events[..|events| - 1]), events[|events| - 1]);
    }
  }

  // ---------- getting stuck ----------

  /** The turn's answer is a split whose review clashes with an event in the log. */
  ghost predicate Clashed(p: Scenario, s: Sys, n: nat) {
    var (x, result) := AnswerTo(s, p.provider, n);
    HalfClashes(s, x, result)
  }

  /** The id under which the turn records the first half of a split, if it makes one. */
  ghost function HalfOf(p: Scenario, s: Sys, n: nat): Option<Key> {
    var (x, result) := AnswerTo(s, p.provider, n);
    HalfKey(s, x, result)
  }

  /** A turn gets a run stuck exactly if it redoes a split review, whose event a crash
      had cut off from its checkpoint, with another content. */
  lemma TurnSticksExactly(p: Scenario, s: Sys, n: nat)
    requires Good(p, Live(s)) && StopsAt(p.provider, p.depth) && Works(s, p.root) && DriverInv(s.graph)
    ensures Stuck(TurnOn(p, s, n).graph) <==> Clashed(p, s, n)
  {
    StepTells(p, s, n);
    var o := StepOf(s, p.provider, n);
    if DriverInv(o.sys.graph) { DriverIsNeverStuck(o.sys.graph); }
    if o.error.Some? { ParkStands(o.sys, REFUSAL, p.root, p.depth); }
  }

  /** What the parking after a refused action adds. */
  lemma RefusalTells(s: Sys, o: Sys, half: Option<Key>, clashed: bool, after: Log)
    requires s.log <= o.log <= after && Tells(s.graph.def, half, |s.log|, o.log) && o.graph.def == s.graph.def
    requires if clashed then Stuck(o.graph) && o.log == s.log else DriverInv(o.graph)
    requires half.Some? ==> half.value.OnCell?
    requires forall i | |o.log| <= i < |after| && after[i].Checkpoint? ::
               after[i].key.AtLength? && GraphOf(s.graph.def, after[i].state.graph) == o.graph
    ensures if clashed then forall i | |s.log| <= i < |after| && after[i].Checkpoint? ::
                              Stuck(GraphOf(s.graph.def, after[i].state.graph))
            else Tells(s.graph.def, half, |s.log|, after)
  {
    if !clashed { ParkFollows(s.graph.def, half, s.log, o, after); }
  }

  /** What the turn's checkpoints save, the parking included. */
  lemma TurnTells(p: Scenario, s: Sys, n: nat)
    requires Good(p, Live(s)) && StopsAt(p.provider, p.depth) && Works(s, p.root) && DriverInv(s.graph)
    ensures var log := TurnOn(p, s, n).log;
            && s.log <= log
            && if Clashed(p, s, n) then forall i | |s.log| <= i < |log| && log[i].Checkpoint? ::
                                            Stuck(GraphOf(s.graph.def, log[i].state.graph))
               else Tells(s.graph.def, HalfOf(p, s, n), |s.log|, log)
  {
    var o := StepOf(s, p.provider, n);
    StepTells(p, s, n);
    if o.error.Some? {
      ParkTells(o.sys, p.root, p.depth);
      RefusalTells(s, o.sys, HalfOf(p, s, n), Clashed(p, s, n), ParkRun(o.sys, REFUSAL).sys.log);
    }
  }

  lemma StepTells(p: Scenario, s: Sys, n: nat)
    requires Good(p, Live(s)) && StopsAt(p.provider, p.depth) && Works(s, p.root) && DriverInv(s.graph)
    ensures var o := StepOf(s, p.provider, n);
            && Standing(o.sys, p.root, p.depth) && o.sys.status == Active && o.sys.graph.def == s.graph.def
            && s.log <= o.sys.log && Tells(s.graph.def, HalfOf(p, s, n), |s.log|, o.sys.log)
            && (if Clashed(p, s, n) then Stuck(o.sys.graph) && o.sys.log == s.log && o.error.Some?
                else DriverInv(o.sys.graph))
  {
    StepTurns(s, p.provider, n, p.root, p.depth);
    var o := StepOf(s, p.provider, n);
    if DriverInv(o.sys.graph) { DriverIsNeverStuck(o.sys.graph); }
  }

  /** The parking checkpoint saves the graph as it is, under an id of its own. */
  lemma ParkTells(s: Sys, root: Id, depth: nat)
    requires Standing(s, root, depth) && s.status == Active
    ensures var log := ParkRun(s, REFUSAL).sys.log;
            && s.log <= log
            && forall i | |s.log| <= i < |log| && log[i].Checkpoint? ::
                 log[i].key.AtLength? && GraphOf(s.graph.def, log[i].state.graph) == s.graph
  {
    var key, payload, parked := AtLength(Parked, |s.log|), StatusChanged(Parked, REFUSAL), s.(status := Parked);
    assert ParkRun(s, REFUSAL) == Append(parked, key, payload);
    AppendSaves(parked, key, payload);
    AppendKeys(parked, key, payload);
    assert GraphOf(s.graph.def, ToDict(s.graph)) == s.graph;
  }

  lemma ParkFollows(def: Definition, half: Option<Key>, log: Log, s: Sys, after: Log)
    requires log <= s.log <= after && Tells(def, half, |log|, s.log) && DriverInv(s.graph) && s.graph.def == def
    requires half.Some? ==> half.value.OnCell?
    requires forall i | |s.log| <= i < |after| && after[i].Checkpoint? ::
               after[i].key.AtLength? && GraphOf(def, after[i].state.graph) == s.graph
    ensures Tells(def, half, |log|, after)
  {
    TellsOn(def, half, log, s.log, after);
  }

  /** A crash inside a turn leaves a run that opens stuck exactly if the last
      checkpoint is the turn's, and is the one between the halves of a split, or the
      parking after a split review that clashed. */
  lemma CrashSticksExactly(p: Scenario, s: Sys, n: nat, k: nat)
    requires Good(p, Live(s)) && StopsAt(p.provider, p.depth) && Works(s, p.root) && DriverInv(s.graph)
    requires DriverInv(GraphOf(s.graph.def, s.log[LastCheckpoint(s.log).value].state.graph))
    requires |s.log| <= k <= |TurnOn(p, s, n).log|
    ensures var cut := TurnOn(p, s, n).log[..k];
            && LastCheckpoint(cut).Some?
            && var at := LastCheckpoint(cut).value;
               Stuck(Recovered(cut, p.setup.def, p.setup.roles).graph) <==>
                 at >= |s.log| && (Clashed(p, s, n) || HalfOf(p, s, n) == Some(cut[at].key))
  {
    TurnTells(p, s, n);
    var log := TurnOn(p, s, n).log;
    var cut := log[..k];
    LastInLonger(s.log, cut);
    var at := LastCheckpoint(cut).value;
    assert cut[at] == log[at];
    var g := GraphOf(s.graph.def, log[at].state.graph);
    assert at < |s.log| ==> log[at] == s.log[at];
    if DriverInv(g) { DriverIsNeverStuck(g); }
  }

  /** Opened after any history, a run with an open root has a next action, unless it is
      stuck: then, active or resumed, every turn refuses and changes nothing. */
  lemma StuckForGood(p: Scenario, s: Sys, n: nat)
    requires Good(p, Live(s)) && Works(s, p.root)
    ensures NextOf(s.graph).Ask? || NextOf(s.graph).Integrate? || NextOf(s.graph) == Undecomposed
    ensures NextOf(s.graph) == Undecomposed <==> !DriverInv(s.graph)
    ensures NextOf(s.graph) == Undecomposed ==> StepOf(s, p.provider, n) == SysOutcome(s, Some(SchemaError))
  {
    if DriverInv(s.graph) {
      DriverIsNeverStuck(s.graph);
      var x := DriverNeverDeadlocks(s.graph, p.root);
    }
  }

  /** So it comes about: a split review killed between its event and its checkpoint,
      the run opened again, and the role answering with other seams. */
  lemma OtherSeamsStick(p: Scenario, s: Sys, n: nat, m: nat)
    requires Good(p, Live(s)) && StopsAt(p.provider, p.depth) && Works(s, p.root) && DriverInv(s.graph)
    requires var (x, first), (_, other) := AnswerTo(s, p.provider, n), AnswerTo(s, p.provider, m);
             && Splits(s, x, first) && FirstTime(p.setup.runId, s, ReviewOf(x, first))
             && Splits(s, x, other) && other.seams != first.seams
    ensures var op := ReviewOf(AnswerTo(s, p.provider, n).0, AnswerTo(s, p.provider, n).1);
            var cut := s.log + [Event(KeyIn(s, op), ContentIn(s, op))];
            && |cut| <= |Perform(s, op).sys.log| && Perform(s, op).sys.log[..|cut|] == cut
            && LastCheckpoint(cut).Some?
            && var t := Recovered(cut, p.setup.def, p.setup.roles);
               t.graph == s.graph && Works(t, p.root) && Stuck(TurnOn(p, t, m).graph)
  {
    var (x, first) := AnswerTo(s, p.provider, n);
    var op := ReviewOf(x, first);
    CutIsGood(p, s, op);
    SeamsClash(s, x, first, AnswerTo(s, p.provider, m).1);
    var t := s.(log := s.log + [Event(KeyIn(s, op), ContentIn(s, op))]);
    assert AnswerTo(t, p.provider, m) == AnswerTo(s, p.provider, m);
    TurnSticksExactly(p, t, m);
  }

  /** Killed between the event and the checkpoint of a call, the run opens on the memory
      before the call, and the driver knows it. */
  lemma CutIsGood(p: Scenario, s: Sys, op: Op)
    requires Good(p, Live(s)) && FirstTime(p.setup.runId, s, op)
    ensures var cut := s.log + [Event(KeyIn(s, op), ContentIn(s, op))];
            && |cut| <= |Perform(s, op).sys.log| && Perform(s, op).sys.log[..|cut|] == cut
            && LastCheckpoint(cut).Some? && Recovered(cut, p.setup.def, p.setup.roles) == s.(log := cut)
            && Good(p, Live(s.(log := cut)))
  {
    CrashBeforeCheckpoint(p.setup, s, op);
    var e := Event(KeyIn(s, op), ContentIn(s, op));
    var cut := s.log + [e];
    LastOf(s.log, e);
    assert cut[LastCheckpoint(s.log).value] == s.log[LastCheckpoint(s.log).value];
  }

  lemma SeamsClash(s: Sys, x: Id, first: RoleResult, other: RoleResult)
    requires Inv(s.graph) && Splits(s, x, first) && Splits(s, x, other) && other.seams != first.seams
    ensures var op := ReviewOf(x, first);
            HalfClashes(s.(log := s.log + [Event(KeyIn(s, op), ContentIn(s, op))]), x, other)
  {
    var op, again := ReviewOf(x, first), ReviewOf(x, other);
    var e := Event(KeyIn(s, op), ContentIn(s, op));
    var t := s.(log := s.log + [e]);
    ReviewBumps(s.graph, op);
    ReviewBumps(s.graph, again);
    assert e in t.log && KeyIn(t, again) == e.key && ContentIn(t, again) != e.payload;
  }

  lemma ReviewBumps(g: Graph, op: Op)
    requires Inv(g) && op.RecordPreReview? && Apply(g, op).error == None
    ensures op.id in g.cells && KeyOf(op, Apply(g, op).graph) == OnCell(PreReviewed, op.id, g.cells[op.id].revision + 1)
  {
    var c := g.cells[op.id];
    assert ConsistentAt(g, op.id);
    var c' := c.(preReviewAccepted := true, leaf := Some(op.leaf), seams := op.seams);
    TransitionEnters(Put(g, c', "pre_review.recorded"), c', if op.leaf then "leaf" else "composite",
                     if op.leaf then Implementation else Children);
  }
}
