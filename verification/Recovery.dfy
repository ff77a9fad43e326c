/** Runs that crash inside any call and are opened again, any number of times: what
    opening finds, what replaying the events says, and what redoing a call meets. */
module Recovery {
  import opened Basics
  import opened Workflow
  import opened GraphInvariant
  import opened System
  import opened History

  // ------------------------------------------------------------------ opening

  predicate Openable(log: Log, runId: string, def: Definition) {
    var at := LastCheckpoint(log);
    && log != [] && log[0] == Event(Creation, RunOpened) && at.Some?
    && (var saved := log[at.value].state.graph;
        && saved.runId == runId && saved.version == def.version
        && KnownPhases(def, saved.cells) && KnownRelatives(saved.cells))
  }

  /** The memory rebuilt from the last checkpoint. */
  function Recovered(log: Log, def: Definition, roles: set<string>): Sys
    requires LastCheckpoint(log).Some?
  {
    var state := log[LastCheckpoint(log).value].state;
    Sys(GraphOf(def, state.graph), roles, state.status, state.interventions, log)
  }

  /** open: find the last checkpoint, rebuild the graph, restore the rest. */
  method OpenRun(log: Log, runId: string, def: Definition, roles: set<string>) returns (r: Option<Sys>)
    ensures r.Some? <==> Openable(log, runId, def)
    ensures r.Some? ==> r.value == Recovered(log, def, roles)
  {
    if log == [] || log[0] != Event(Creation, RunOpened) { return None; }
    var at: Option<nat> := None;
    for n := 0 to |log|
      invariant at == LastCheckpoint(log[..n])
    {
      assert log[..n + 1][..n] == log[..n];
      if log[n].Checkpoint? { at := Some(n); }
    }
    assert log[..|log|] == log;
    if at == None { return None; }
    var state := log[at.value].state;
    var graph := FromDict(state.graph, def, runId);
    if graph == None { return None; }
    r := Some(Sys(graph.value, roles, state.status, state.interventions, log));
  }

  lemma SoundLogsOpen(runId: string, def: Definition, roles: set<string>, log: Log)
    requires LogSound(runId, def, log)
    ensures Openable(log, runId, def) && LiveSound(runId, Recovered(log, def, roles))
  {
    var at := LastCheckpoint(log).value;
    var s := Recovered(log, def, roles);
    assert SoundAt(runId, def, log, at);
    SavedGraphRestores(s.graph, s.graph);
    assert ToDict(s.graph) == log[at].state.graph && Save(s) == log[at].state;
    assert log[..at + 1][at] == log[at];
    forall i | 0 <= i < |log| && log[i].Checkpoint? ensures Behind(log[i], Save(s)) {
      assert log[..at + 1][i] == log[i];
    }
  }

  // ---------------------------------------------------------------- replaying

  function ReplayedStatus(log: Log): RunStatus {
    if log == [] then Active
    else
      var last := log[|log| - 1];
      if last.Event? && last.payload.StatusChanged? then last.payload.status else ReplayedStatus(log[..|log| - 1])
  }

  function ReplayedInterventions(log: Log): seq<Intervention> {
    if log == [] then []
    else
      var last, front := log[|log| - 1], ReplayedInterventions(log[..|log| - 1]);
      if last.Event? && last.payload.Intervened? then front + [last.payload.intervention] else front
  }

  /** The reducer's loop over the events, for status and interventions. */
  method Replay(log: Log) returns (status: RunStatus, interventions: seq<Intervention>)
    ensures status == ReplayedStatus(log) && interventions == ReplayedInterventions(log)
  {
    status, interventions := Active, [];
    assert log[..0] == [];
    for n := 0 to |log|
      invariant status == ReplayedStatus(log[..n]) && interventions == ReplayedInterventions(log[..n])
    {
      assert log[..n + 1][..n] == log[..n];
      if log[n].Event? {
        match log[n].payload
        case StatusChanged(to, _) => status := to;
        case Intervened(i) => interventions := interventions + [i];
        case _ =>
      }
    }
    assert log[..|log|] == log;
  }

  /** The last status event, if there is one, is followed by its own checkpoint. */
  predicate StatusSettled(log: Log) {
    if log == [] then true
    else
      var n := |log| - 1;
      if log[n].Event? then !log[n].payload.StatusChanged? && StatusSettled(log[..n])
      else log[n].key.AtLength? || StatusSettled(log[..n])
  }

  /** Replay and recovery agree on the status exactly if no crash cut the last status
      event off from its checkpoint. */
  lemma {:induction false} ReplayAgreesWithRecovery(runId: string, def: Definition, log: Log, k: nat)
    requires LogSound(runId, def, log) && k <= |log|
    ensures ReplayedStatus(log[..k]) == StatusAt(log[..k]) <==> StatusSettled(log[..k])
  {
    if k > 0 {
      var cut := log[..k - 1];
      ReplayAgreesWithRecovery(runId, def, log, k - 1);
      assert log[..k] == cut + [log[k - 1]] && log[..k][..k - 1] == cut;
      LastOf(cut, log[k - 1]);
      assert SoundAt(runId, def, log, k - 1);
      if log[k - 1].Checkpoint? && log[k - 1].key.AtLength? {
        assert SoundAt(runId, def, log, k - 2);
        assert cut[|cut| - 1] == log[k - 2];
      }
    }
  }

  // ---------------------------------------------------- runs that crash

  datatype Setup = Setup(runId: string, def: Definition, roles: set<string>)

  datatype RunState = Live(sys: Sys) | Down(log: Log)

  /** Die(call, k): the process dies inside the call when the log has k records. */
  datatype Step = Call(call: SysOp) | Die(call: SysOp, k: nat) | Restart

  function LogOf(s: RunState): Log {
    if s.Live? then s.sys.log else s.log
  }

  ghost function Next(c: Setup, s: RunState, step: Step): RunState {
    match (s, step)
    case (Live(sys), Call(call)) => Live(SysApply(sys, call).sys)
    case (Live(sys), Die(call, k)) =>
      var after := SysApply(sys, call).sys.log;
      if |sys.log| <= k <= |after| then Down(after[..k]) else s
    case (Down(log), Restart) =>
      if Openable(log, c.runId, c.def) then Live(Recovered(log, c.def, c.roles)) else s
    case _ => s
  }

  function Start(c: Setup): Sys {
    Created(Fresh(c.runId, c.def), c.roles)
  }

  ghost function After(c: Setup, steps: seq<Step>): RunState {
    if steps == [] then Live(Start(c)) else Next(c, After(c, steps[..|steps| - 1]), steps[|steps| - 1])
  }

  ghost predicate StateSound(c: Setup, s: RunState) {
    match s
    case Live(sys) => LiveSound(c.runId, sys) && sys.graph.def == c.def && sys.roles == c.roles
    case Down(log) => LogSound(c.runId, c.def, log)
  }

  lemma StartSound(c: Setup)
    requires WellShaped(c.def)
    ensures StateSound(c, Live(Start(c)))
  {
    CreatedSound(c.runId, c.def, c.roles);
  }

  lemma StepSound(c: Setup, s: RunState, step: Step)
    requires StateSound(c, s)
    ensures StateSound(c, Next(c, s, step))
  {
    match (s, step)
    case (Live(sys), Call(call)) => CallSound(c.runId, sys, call);
    case (Live(sys), Die(call, k)) =>
      CallSound(c.runId, sys, call);
      var after := SysApply(sys, call).sys.log;
      if |sys.log| <= k <= |after| { PrefixSound(c.runId, c.def, after, k); }
    case (Down(log), Restart) => SoundLogsOpen(c.runId, c.def, c.roles, log);
    case _ =>
  }

  /** Every run, however often it crashed and was opened again, keeps its history
      sound: live memory and every log on disk. */
  lemma {:induction false} EveryHistory(c: Setup, steps: seq<Step>)
    requires WellShaped(c.def)
    ensures StateSound(c, After(c, steps))
  {
    if steps == [] {
      StartSound(c);
    } else {
      EveryHistory(c, steps[..|steps| - 1]);
      StepSound(c, After(c, steps[..|steps| - 1]), steps[|steps| - 1]);
    }
  }

  /** Cut at any record past the first checkpoint, the log of any run opens, on a
      memory that is as good as a live one. */
  lemma EveryCutOpens(c: Setup, steps: seq<Step>, k: nat)
    requires WellShaped(c.def) && 2 <= k <= |LogOf(After(c, steps))|
    ensures var cut := LogOf(After(c, steps))[..k];
            && Openable(cut, c.runId, c.def)
            && LiveSound(c.runId, Recovered(cut, c.def, c.roles))
            && (ReplayedStatus(cut) == Recovered(cut, c.def, c.roles).status <==> StatusSettled(cut))
  {
    EveryHistory(c, steps);
    var log := LogOf(After(c, steps));
    PrefixSound(c.runId, c.def, log, k);
    SoundLogsOpen(c.runId, c.def, c.roles, log[..k]);
    ReplayAgreesWithRecovery(c.runId, c.def, log, k);
  }

  // ---------------------------------------- which moment a checkpoint saves

  ghost predicate Issued(c: Setup, steps: seq<Step>, n: nat)
    requires 0 < n <= |steps|
  {
    After(c, steps[..n - 1]).Live? && !steps[n - 1].Restart?
  }

  /** The saved state is that of the n-th step: what its call made of the memory, or
      the integration the call began first. */
  ghost predicate Moment(c: Setup, steps: seq<Step>, n: nat, saved: SavedState)
    requires n <= |steps|
  {
    if n == 0 then saved == Save(Start(c))
    else
      && Issued(c, steps, n)
      && var s, call := After(c, steps[..n - 1]).sys, steps[n - 1].call;
         saved == Save(SysApply(s, call).sys) || saved == Save(Midway(s, call))
  }

  lemma MomentStays(c: Setup, fewer: seq<Step>, steps: seq<Step>, n: nat, saved: SavedState)
    requires fewer <= steps && n <= |fewer| && Moment(c, fewer, n, saved)
    ensures Moment(c, steps, n, saved)
  {
    if n > 0 { assert fewer[..n - 1] == steps[..n - 1]; }
  }

  ghost function Earlier(c: Setup, steps: seq<Step>): RunState
    requires steps != []
  {
    After(c, steps[..|steps| - 1])
  }

  /** A checkpoint the last step added saves that step. */
  lemma NewCheckpoint(c: Setup, steps: seq<Step>, i: nat)
    requires WellShaped(c.def) && steps != []
    requires |LogOf(Earlier(c, steps))| <= i < |LogOf(After(c, steps))| && LogOf(After(c, steps))[i].Checkpoint?
    ensures Moment(c, steps, |steps|, LogOf(After(c, steps))[i].state)
  {
    EveryHistory(c, steps[..|steps| - 1]);
    var before, step := Earlier(c, steps), steps[|steps| - 1];
    if before.Live? && !step.Restart? {
      CallSaves(c.runId, before.sys, step.call);
    }
  }

  lemma LogsGrow(c: Setup, steps: seq<Step>)
    requires WellShaped(c.def) && steps != []
    ensures LogOf(Earlier(c, steps)) <= LogOf(After(c, steps))
  {
    EveryHistory(c, steps[..|steps| - 1]);
    var before, step := Earlier(c, steps), steps[|steps| - 1];
    if before.Live? && !step.Restart? { CallSound(c.runId, before.sys, step.call); }
  }

  /** The moment of the checkpoint with the given state. */
  lemma {:induction false} MomentOf(c: Setup, steps: seq<Step>, i: nat, saved: SavedState) returns (n: nat)
    requires WellShaped(c.def) && i < |LogOf(After(c, steps))|
    requires LogOf(After(c, steps))[i].Checkpoint? && LogOf(After(c, steps))[i].state == saved
    ensures n <= |steps| && Moment(c, steps, n, saved)
  {
    if steps == [] {
      n := 0;
    } else {
      LogsGrow(c, steps);
      if i < |LogOf(Earlier(c, steps))| {
        var fewer := steps[..|steps| - 1];
        n := MomentOf(c, fewer, i, saved);
        MomentStays(c, fewer, steps, n, saved);
      } else {
        NewCheckpoint(c, steps, i);
        n := |steps|;
      }
    }
  }

  /** Every checkpoint of every run saves what the run had in memory at one of its
      steps: opening never finds a state that was not there. */
  lemma EveryCheckpointIsAMoment(c: Setup, steps: seq<Step>, i: nat) returns (n: nat)
    requires WellShaped(c.def) && i < |LogOf(After(c, steps))| && LogOf(After(c, steps))[i].Checkpoint?
    ensures n <= |steps| && Moment(c, steps, n, LogOf(After(c, steps))[i].state)
  {
    n := MomentOf(c, steps, i, LogOf(After(c, steps))[i].state);
  }

  /** A call that returned left everything saved. */
  lemma SuccessIsSaved(runId: string, s: Sys, call: SysOp)
    requires LiveSound(runId, s) && SysApply(s, call).error == None
    requires call.TailOp? ==> Unsaved(s.log, OfTail(call.name))
    ensures AllSaved(SysApply(s, call).sys)
  {
    match call
    case InterveneOp(i) => InterventionIsSaved(runId, s, i);
    case TailOp(name) => AppendSound(runId, s, OfTail(name), TailQuarantined);
    case Lifecycle(op) => LifecycleIsSaved(runId, s, op);
    case _ => StatusCallSound(runId, s, call);
  }

  lemma InterventionIsSaved(runId: string, s: Sys, i: Intervention)
    requires LiveSound(runId, s) && Intervene(s, i).error == None
    ensures AllSaved(Intervene(s, i).sys)
  {
    var s' := s.(interventions := s.interventions + [i]);
    var key := OfOwner(i.authorization, |s'.interventions|);
    NewerKeepsBehind(s.log, Save(s), Save(s'));
    AheadIsUnsaved(s.log, Save(s), key);
    AppendSound(runId, s', key, Intervened(i));
  }

  lemma IntegrationIsSaved(runId: string, s: Sys, op: Op)
    requires LiveSound(runId, s) && op.RecordIntegration? && op.id in s.graph.cells && s.graph.Kind(op.id) == Children
    requires PerformIntegration(s, op.id, op.passed, op.evidence).error == None
    ensures AllSaved(PerformIntegration(s, op.id, op.passed, op.evidence).sys)
  {
    var begin := Op.BeginIntegration(op.id);
    PerformSound(runId, s, begin);
    BegunIsIntegration(runId, s, op.id);
    RecordedIff(runId, Perform(s, begin).sys, op);
  }

  lemma LifecycleIsSaved(runId: string, s: Sys, op: Op)
    requires LiveSound(runId, s) && SysApply(s, Lifecycle(op)).error == None
    ensures AllSaved(SysApply(s, Lifecycle(op)).sys)
  {
    if op.Decompose? {
      SplitRecordedIff(runId, s, op.id, op.children);
    } else if op.RecordIntegration? && op.id in s.graph.cells && s.graph.Kind(op.id) == Children {
      IntegrationIsSaved(runId, s, op);
    } else {
      RecordedIff(runId, s, op);
    }
  }

  lemma {:induction false} LogsExtend(c: Setup, steps: seq<Step>, m: nat)
    requires WellShaped(c.def) && m <= |steps|
    ensures LogOf(After(c, steps[..m])) <= LogOf(After(c, steps))
    decreases |steps|
  {
    if m < |steps| {
      var fewer := steps[..|steps| - 1];
      assert fewer[..m] == steps[..m];
      LogsExtend(c, fewer, m);
      LogsGrow(c, steps);
    } else {
      assert steps[..m] == steps;
    }
  }

  /** What opening would find now is the n-th step. */
  ghost predicate Latest(c: Setup, steps: seq<Step>, n: nat) {
    var log := LogOf(After(c, steps));
    n <= |steps| && LastCheckpoint(log).Some? && Moment(c, steps, n, log[LastCheckpoint(log).value].state)
  }

  lemma LastInLonger(past: Log, log: Log)
    requires past <= log && LastCheckpoint(past).Some?
    ensures LastCheckpoint(log).Some?
    ensures LastCheckpoint(log) == LastCheckpoint(past) || LastCheckpoint(log).value >= |past|
  {
    var p := LastCheckpoint(past).value;
    assert log[p] == past[p];
    if LastCheckpoint(log).Some? && LastCheckpoint(log).value < |past| {
      var at := LastCheckpoint(log).value;
      assert past[at] == log[at];
    }
  }

  lemma StaysLatest(c: Setup, steps: seq<Step>, n: nat)
    requires steps != [] && Latest(c, steps[..|steps| - 1], n)
    requires LogOf(Earlier(c, steps)) <= LogOf(After(c, steps))
    requires LastCheckpoint(LogOf(After(c, steps))) == LastCheckpoint(LogOf(Earlier(c, steps)))
    ensures Latest(c, steps, n)
  {
    var log := LogOf(After(c, steps));
    var saved := log[LastCheckpoint(log).value].state;
    assert saved == LogOf(Earlier(c, steps))[LastCheckpoint(log).value].state;
    MomentStays(c, steps[..|steps| - 1], steps, n, saved);
  }

  lemma LatestMovesOn(c: Setup, steps: seq<Step>, n: nat) returns (now: nat)
    requires WellShaped(c.def) && steps != [] && Latest(c, steps[..|steps| - 1], n)
    ensures Latest(c, steps, now) && (now == n || now == |steps|)
  {
    LogsGrow(c, steps);
    var past, log := LogOf(Earlier(c, steps)), LogOf(After(c, steps));
    LastInLonger(past, log);
    if LastCheckpoint(log) == LastCheckpoint(past) {
      StaysLatest(c, steps, n);
      now := n;
    } else {
      NewCheckpoint(c, steps, LastCheckpoint(log).value);
      now := |steps|;
    }
  }

  ghost predicate Returned(c: Setup, steps: seq<Step>, m: nat)
    requires 0 < m <= |steps|
  {
    && Issued(c, steps, m) && steps[m - 1].Call?
    && var s, call := After(c, steps[..m - 1]).sys, steps[m - 1].call;
       SysApply(s, call).error == None && (call.TailOp? ==> Unsaved(s.log, OfTail(call.name)))
  }

  lemma ReturnedIsLatest(c: Setup, steps: seq<Step>)
    requires WellShaped(c.def) && steps != [] && Returned(c, steps, |steps|)
    ensures Latest(c, steps, |steps|)
  {
    var s, call := Earlier(c, steps).sys, steps[|steps| - 1].call;
    EveryHistory(c, steps[..|steps| - 1]);
    SuccessIsSaved(c.runId, s, call);
    SavedIsLatest(c, steps, s, call);
  }

  lemma SavedIsLatest(c: Setup, steps: seq<Step>, s: Sys, call: SysOp)
    requires steps != [] && Earlier(c, steps) == Live(s) && steps[|steps| - 1] == Call(call)
    requires AllSaved(SysApply(s, call).sys)
    ensures Latest(c, steps, |steps|)
  {
    assert After(c, steps) == Live(SysApply(s, call).sys);
  }

  /** Nothing a call returned from is lost: whatever crashes and calls come after it,
      opening finds that step or a later one. */
  lemma {:induction false} NothingDoneIsLost(c: Setup, steps: seq<Step>, m: nat) returns (n: nat)
    requires WellShaped(c.def) && 0 < m <= |steps| && Returned(c, steps, m)
    ensures m <= n && Latest(c, steps, n)
    decreases |steps|
  {
    if m == |steps| {
      ReturnedIsLatest(c, steps);
      n := m;
    } else {
      var fewer := steps[..|steps| - 1];
      assert fewer[..m - 1] == steps[..m - 1];
      n := NothingDoneIsLost(c, fewer, m);
      n := LatestMovesOn(c, steps, n);
    }
  }

  // ------------------------------------------------------- redoing a call

  /** A call about to be recorded for the first time. */
  ghost predicate FirstTime(runId: string, s: Sys, op: Op) {
    && LiveSound(runId, s) && AllSaved(s) && s.status == Active && Single(s.graph, op)
    && Perform(s, op).error == None && Event(KeyIn(s, op), ContentIn(s, op)) !in s.log
  }

  /** A crash between a call's event and its checkpoint leaves the memory as it was
      before the call, over a log that has the event. */
  lemma CrashBeforeCheckpoint(c: Setup, s: Sys, op: Op)
    requires FirstTime(c.runId, s, op) && s.graph.def == c.def && s.roles == c.roles
    ensures |s.log| + 1 <= |Perform(s, op).sys.log|
    ensures var cut := Perform(s, op).sys.log[..|s.log| + 1];
            && cut == s.log + [Event(KeyIn(s, op), ContentIn(s, op))]
            && LastCheckpoint(cut).Some? && Recovered(cut, c.def, c.roles) == s.(log := cut)
            && LiveSound(c.runId, s.(log := cut))
  {
    CutAfterEvent(s, op);
    CutIsSound(c, s, op, Event(KeyIn(s, op), ContentIn(s, op)));
    EventIsForgotten(c, s, Event(KeyIn(s, op), ContentIn(s, op)));
  }

  lemma CutIsSound(c: Setup, s: Sys, op: Op, e: Record)
    requires LiveSound(c.runId, s) && s.graph.def == c.def && Single(s.graph, op)
    requires |s.log| < |Perform(s, op).sys.log| && Perform(s, op).sys.log[..|s.log| + 1] == s.log + [e]
    ensures LogSound(c.runId, c.def, s.log + [e])
  {
    PerformSound(c.runId, s, op);
    PrefixSound(c.runId, c.def, Perform(s, op).sys.log, |s.log| + 1);
  }

  /** Opening does not see an event without its checkpoint. */
  lemma EventIsForgotten(c: Setup, s: Sys, e: Record)
    requires e.Event? && AllSaved(s) && Inv(s.graph) && s.graph.def == c.def && s.roles == c.roles
    requires LogSound(c.runId, c.def, s.log + [e])
    ensures var cut := s.log + [e];
            && LastCheckpoint(cut).Some? && Recovered(cut, c.def, c.roles) == s.(log := cut)
            && LiveSound(c.runId, s.(log := cut))
  {
    LastOf(s.log, e);
    SoundLogsOpen(c.runId, c.def, c.roles, s.log + [e]);
    assert GraphOf(c.def, ToDict(s.graph)) == s.graph;
  }

  /** Opened there, the system accepts the call again exactly if its content is the
      same; with other content it refuses, after having changed the memory. */
  lemma RedoneIffSame(c: Setup, s: Sys, op: Op, again: Op)
    requires FirstTime(c.runId, s, op) && s.graph.def == c.def && s.roles == c.roles
    requires Single(s.graph, again) && Apply(s.graph, again).error == None && KeyIn(s, again) == KeyIn(s, op)
    ensures var t := s.(log := s.log + [Event(KeyIn(s, op), ContentIn(s, op))]);
            && (Perform(t, again).error == None <==> ContentIn(s, again) == ContentIn(s, op))
            && Perform(t, again).sys.graph == Apply(s.graph, again).graph
  {
    CrashBeforeCheckpoint(c, s, op);
    var e := Event(KeyIn(s, op), ContentIn(s, op));
    var t := s.(log := s.log + [e]);
    RecordedIff(c.runId, s, op);
    RecordedIff(c.runId, t, again);
    OneEventMore(s.log, e, ContentIn(s, again));
  }

  /** A log with one event more, against an event of its id. */
  lemma OneEventMore(log: Log, e: Record, content: Payload)
    requires e.Event? && UniqueIds(log + [e])
    ensures Unsaved(log + [e], e.key) <==> Unsaved(log, e.key)
    ensures Clashes(log + [e], e.key, content) <==> content != e.payload
  {
    var longer := log + [e];
    assert e in longer;
    OnlyEventWith(longer, e);
    forall q | q in longer && q.Event? && q.key == e.key ensures q.payload == e.payload {}
  }

  lemma CutAfterEvent(s: Sys, op: Op)
    requires Offered(op) && s.status == Active && Perform(s, op).error == None
    requires Event(KeyIn(s, op), ContentIn(s, op)) !in s.log
    ensures |s.log| + 1 <= |Perform(s, op).sys.log|
    ensures Perform(s, op).sys.log[..|s.log| + 1] == s.log + [Event(KeyIn(s, op), ContentIn(s, op))]
  {}

  // ---------------------------------------------------------- special runs

  function Calls(calls: seq<SysOp>): seq<Step> {
    seq(|calls|, i requires 0 <= i < |calls| => Call(calls[i]))
  }

  lemma {:induction false} UncrashedRun(c: Setup, calls: seq<SysOp>)
    ensures After(c, Calls(calls)) == Live(SysRun(Start(c), calls))
  {
    if calls != [] {
      var n := |calls| - 1;
      UncrashedRun(c, calls[..n]);
      assert Calls(calls)[..n] == Calls(calls[..n]);
    }
  }

  /** The first crash of a run goes back to the state after some of its calls, or to
      an integration its integration result had begun. */
  lemma FirstCrashGoesBack(c: Setup, calls: seq<SysOp>, call: SysOp, k: nat) returns (n: nat)
    requires WellShaped(c.def) && After(c, Calls(calls) + [Die(call, k)]).Down?
    ensures n <= |calls| + 1
    ensures var log := After(c, Calls(calls) + [Die(call, k)]).log;
            var all := calls + [call];
            && LastCheckpoint(log).Some?
            && var state := log[LastCheckpoint(log).value].state;
               || state == Save(SysRun(Start(c), all[..n]))
               || (n > 0 && state == Save(Midway(SysRun(Start(c), all[..n - 1]), all[n - 1])))
  {
    var steps, all := Calls(calls) + [Die(call, k)], calls + [call];
    EveryHistory(c, steps);
    var log := After(c, steps).log;
    SoundLogsOpen(c.runId, c.def, c.roles, log);
    n := EveryCheckpointIsAMoment(c, steps, LastCheckpoint(log).value);
    if n > 0 {
      assert steps[..n - 1] == Calls(all[..n - 1]);
      UncrashedRun(c, all[..n - 1]);
      assert all[..n][..n - 1] == all[..n - 1];
    }
  }

  /** The log of a run paused at once and killed before the checkpoint. */
  function PausedLog(c: Setup, reason: string): Log {
    Start(c).log + [Event(AtLength(Paused, 2), StatusChanged(Paused, reason))]
  }

  lemma KilledPause(c: Setup, reason: string)
    requires WellShaped(c.def) && reason != ""
    ensures After(c, [Die(PauseOp(reason), 3)]) == Down(PausedLog(c, reason))
    ensures LogSound(c.runId, c.def, PausedLog(c, reason))
  {
    var start := Start(c);
    StartSound(c);
    StatusSound(c.runId, start, Paused, reason);
    var after := SysApply(start, PauseOp(reason)).sys.log;
    assert after[..3] == PausedLog(c, reason);
    assert [Die(PauseOp(reason), 3)][..0] == [];
    PrefixSound(c.runId, c.def, after, 3);
  }

  lemma KilledPauseOpens(c: Setup, reason: string)
    requires WellShaped(c.def) && reason != ""
    ensures After(c, [Die(PauseOp(reason), 3), Restart]) == Live(Start(c).(log := PausedLog(c, reason)))
    ensures LiveSound(c.runId, Start(c).(log := PausedLog(c, reason)))
  {
    var steps, start := [Die(PauseOp(reason), 3), Restart], Start(c);
    KilledPause(c, reason);
    SoundLogsOpen(c.runId, c.def, c.roles, PausedLog(c, reason));
    LastOf(start.log, Event(AtLength(Paused, 2), StatusChanged(Paused, reason)));
    LastOf(start.log[..1], start.log[1]);
    assert start.log == start.log[..1] + [start.log[1]];
    assert GraphOf(c.def, ToDict(start.graph)) == start.graph;
    assert Recovered(PausedLog(c, reason), c.def, c.roles) == start.(log := PausedLog(c, reason));
    assert steps[..1] == [Die(PauseOp(reason), 3)];
  }

  lemma StillUnsettled(log: Log, e: Record, saved: Record)
    requires e.Event? && !e.payload.StatusChanged? && saved.Checkpoint? && !saved.key.AtLength?
    ensures StatusSettled(log + [e] + [saved]) == StatusSettled(log)
    ensures ReplayedStatus(log + [e] + [saved]) == ReplayedStatus(log)
  {
    assert (log + [e] + [saved])[..|log| + 1] == log + [e];
    assert (log + [e])[..|log|] == log;
  }

  /** A run paused, killed before the checkpoint and opened again goes on as active,
      and its replay says paused, whatever the events after it. */
  lemma LostPause(c: Setup, reason: string, id: Id, refs: References)
    requires WellShaped(c.def) && reason != ""
    ensures var steps := [Die(PauseOp(reason), 3), Restart, Call(Lifecycle(Op.CreateRoot(id, refs, ["o"], [])))];
            var s := After(c, steps);
            && s.Live? && s.sys.status == Active && id in s.sys.graph.cells && |s.sys.log| == 5
            && s.sys.log[3].Event? && !s.sys.log[3].payload.StatusChanged? && ReplayedStatus(s.sys.log) == Paused
  {
    var create := Op.CreateRoot(id, refs, ["o"], []);
    var steps := [Die(PauseOp(reason), 3), Restart, Call(Lifecycle(create))];
    KilledPauseOpens(c, reason);
    assert steps[..2] == [Die(PauseOp(reason), 3), Restart];
    CreateIsRecorded(c, reason, create);
  }

  lemma CreateIsRecorded(c: Setup, reason: string, create: Op)
    requires WellShaped(c.def) && reason != "" && create.CreateRoot? && create.obligations == ["o"]
    ensures var o := SysApply(Start(c).(log := PausedLog(c, reason)), Lifecycle(create));
            && o.sys.status == Active && create.id in o.sys.graph.cells && |o.sys.log| == 5
            && o.sys.log[3].Event? && !o.sys.log[3].payload.StatusChanged? && ReplayedStatus(o.sys.log) == Paused
  {
    KilledPauseOpens(c, reason);
    var log := PausedLog(c, reason);
    assert log[..2] == Start(c).log;
    RecordedIff(c.runId, Start(c).(log := log), create);
    CreateFollows(c, log, create);
  }

  lemma CreateFollows(c: Setup, log: Log, create: Op)
    requires create.CreateRoot? && |log| == 3 && Perform(Start(c).(log := log), create).error == None
    requires Apply(Start(c).graph, create).error == None && ReplayedStatus(log) == Paused
    requires forall r | r in log :: r.key != KeyOf(create, Apply(Start(c).graph, create).graph)
    ensures var made := Perform(Start(c).(log := log), create).sys.log;
            && |made| == 5 && made[3].Event? && !made[3].payload.StatusChanged? && ReplayedStatus(made) == Paused
  {
    var made := Perform(Start(c).(log := log), create).sys.log;
    assert made == log + [made[3]] + [made[4]];
    StillUnsettled(log, made[3], made[4]);
  }

  // -------------------------------------------- replaying an uncrashed run

  /** Replaying the events gives what is in memory, and no intervention is logged
      that the memory does not count. */
  ghost predicate Replays(s: Sys) {
    && ReplayedStatus(s.log) == s.status && ReplayedInterventions(s.log) == s.interventions
    && forall q | q in s.log && q.key.OfOwner? :: q.key.count <= |s.interventions|
  }

  lemma ReplayMore(log: Log, r: Record)
    ensures ReplayedStatus(log + [r]) ==
            if r.Event? && r.payload.StatusChanged? then r.payload.status else ReplayedStatus(log)
    ensures ReplayedInterventions(log + [r]) ==
            ReplayedInterventions(log) + if r.Event? && r.payload.Intervened? then [r.payload.intervention] else []
  {
    assert (log + [r])[..|log|] == log;
  }

  lemma QuietAppend(s: Sys, key: Key, payload: Payload)
    requires Replays(s) && !key.OfOwner? && !payload.StatusChanged? && !payload.Intervened?
    ensures Replays(Append(s, key, payload).sys)
  {
    var e, r := Event(key, payload), Checkpoint(key, Save(s));
    ReplayMore(s.log, e);
    if Write(s.log, e).Some? { ReplayMore(Write(s.log, e).value, r); }
  }

  lemma FreshAppend(s: Sys, key: Key, payload: Payload)
    requires forall q | q in s.log :: q.key != key
    ensures var e, r := Event(key, payload), Checkpoint(key, Save(s));
            Append(s, key, payload) == SysOutcome(s.(log := s.log + [e] + [r]), None)
  {}

  lemma StatusReplays(runId: string, s: Sys, to: RunStatus, reason: string)
    requires LiveSound(runId, s) && Replays(s)
    ensures Replays(ChangeStatus(s, to, reason).sys)
  {
    var key, payload := AtLength(to, |s.log|), StatusChanged(to, reason);
    var s' := s.(status := to);
    LengthIsFresh(runId, s.graph.def, s.log, key);
    FreshAppend(s', key, payload);
    ReplayMore(s.log, Event(key, payload));
    ReplayMore(s.log + [Event(key, payload)], Checkpoint(key, Save(s')));
  }

  lemma InterventionReplays(s: Sys, i: Intervention)
    requires Replays(s)
    ensures Replays(Intervene(s, i).sys)
  {
    if i.authorization != "" && i.action != "" && i.reason != "" {
      var s' := s.(interventions := s.interventions + [i]);
      var key := OfOwner(i.authorization, |s'.interventions|);
      FreshAppend(s', key, Intervened(i));
      ReplayMore(s.log, Event(key, Intervened(i)));
      ReplayMore(s.log + [Event(key, Intervened(i))], Checkpoint(key, Save(s')));
    }
  }

  lemma {:induction false} BirthsReplay(s: Sys, ids: seq<Id>)
    requires Replays(s)
    ensures Replays(AppendBirths(s, ids).sys)
  {
    if ids != [] {
      var n := |ids| - 1;
      BirthsReplay(s, ids[..n]);
      var o := AppendBirths(s, ids[..n]);
      if o.error == None { QuietAppend(o.sys, BirthKey(s.graph, ids[n]), BirthOf(s.graph, ids[n])); }
    }
  }

  lemma PerformReplays(s: Sys, op: Op)
    requires Replays(s) && Offered(op)
    ensures Replays(Perform(s, op).sys)
  {
    var g' := Apply(s.graph, op).graph;
    QuietAppend(s.(graph := g'), KeyOf(op, g'), ContentOf(op, s.graph, g'));
  }

  lemma LifecycleReplays(s: Sys, op: Op)
    requires Replays(s)
    ensures Replays(SysApply(s, Lifecycle(op)).sys)
  {
    if op.Decompose? {
      var g' := Apply(s.graph, op).graph;
      var s' := s.(graph := g');
      BirthsReplay(s', ChildrenIn(g', op.id));
      QuietAppend(AppendBirths(s', ChildrenIn(g', op.id)).sys, KeyOf(op, g'), ContentOf(op, s.graph, g'));
    } else if Offered(op) {
      PerformReplays(s, op);
      if op.RecordIntegration? {
        PerformReplays(s, Op.BeginIntegration(op.id));
        PerformReplays(Perform(s, Op.BeginIntegration(op.id)).sys, op);
      }
    }
  }

  lemma CallReplays(runId: string, s: Sys, call: SysOp)
    requires LiveSound(runId, s) && Replays(s)
    ensures Replays(SysApply(s, call).sys)
  {
    match call
    case Lifecycle(op) => LifecycleReplays(s, op);
    case InterveneOp(i) => InterventionReplays(s, i);
    case TailOp(name) => QuietAppend(s, OfTail(name), TailQuarantined);
    case _ =>
      var refused, to, reason := StatusCall(s, call);
      if !refused { StatusReplays(runId, s, to, reason); }
  }

  lemma StartReplays(c: Setup)
    ensures Replays(Start(c))
  {
    var log := Start(c).log;
    ReplayMore([], log[0]);
    ReplayMore([log[0]], log[1]);
    assert log == [] + [log[0]] + [log[1]];
  }

  /** Without a crash, replaying the events gives the status and the interventions in
      memory after every call, refused ones included. */
  lemma {:induction false} UncrashedRunReplays(c: Setup, calls: seq<SysOp>)
    requires WellShaped(c.def)
    ensures Replays(SysRun(Start(c), calls))
  {
    if calls == [] {
      StartReplays(c);
    } else {
      var n := |calls| - 1;
      UncrashedRunReplays(c, calls[..n]);
      EveryHistory(c, Calls(calls[..n]));
      UncrashedRun(c, calls[..n]);
      CallReplays(c.runId, SysRun(Start(c), calls[..n]), calls[n]);
    }
  }

  // ------------------------------------------------- graphs of crashed runs

  /** The graph is one a forward run of graph calls reaches. */
  ghost predicate Reachable(c: Setup, g: Graph) {
    exists ops :: Forward(ops) && Run(Fresh(c.runId, c.def), ops) == g
  }

  lemma OneCallFurther(c: Setup, g: Graph, op: Op)
    requires Reachable(c, g) && !Backward(op)
    ensures Reachable(c, Apply(g, op).graph)
  {
    var ops :| Forward(ops) && Run(Fresh(c.runId, c.def), ops) == g;
    assert (ops + [op])[..|ops|] == ops;
    assert Run(Fresh(c.runId, c.def), ops + [op]) == Apply(g, op).graph;
  }

  lemma {:induction false} BirthsKeepMemory(s: Sys, ids: seq<Id>)
    ensures AppendBirths(s, ids).sys.graph == s.graph
  {
    if ids != [] { BirthsKeepMemory(s, ids[..|ids| - 1]); }
  }

  lemma PerformGraph(s: Sys, op: Op)
    requires Offered(op)
    ensures Perform(s, op).sys.graph == s.graph || Perform(s, op).sys.graph == Apply(s.graph, op).graph
  {}

  lemma DecomposeGraph(s: Sys, id: Id, children: seq<ChildSpec>)
    ensures var g' := PerformDecompose(s, id, children).sys.graph;
            g' == s.graph || g' == Apply(s.graph, Op.Decompose(id, children)).graph
  {
    var g' := Apply(s.graph, Op.Decompose(id, children)).graph;
    BirthsKeepMemory(s.(graph := g'), ChildrenIn(g', id));
  }

  lemma PerformIsReachable(c: Setup, s: Sys, op: Op)
    requires Reachable(c, s.graph) && Offered(op)
    ensures Reachable(c, Perform(s, op).sys.graph)
  {
    OneCallFurther(c, s.graph, op);
    PerformGraph(s, op);
  }

  lemma LifecycleIsReachable(c: Setup, s: Sys, op: Op)
    requires Reachable(c, s.graph)
    ensures Reachable(c, SysApply(s, Lifecycle(op)).sys.graph)
  {
    if op.Decompose? {
      OneCallFurther(c, s.graph, op);
      DecomposeGraph(s, op.id, op.children);
    } else if op.RecordIntegration? {
      PerformIsReachable(c, s, op);
      var begin := Op.BeginIntegration(op.id);
      PerformIsReachable(c, s, begin);
      PerformIsReachable(c, Perform(s, begin).sys, op);
    } else if Offered(op) {
      PerformIsReachable(c, s, op);
    }
  }

  lemma CallIsReachable(c: Setup, s: Sys, call: SysOp)
    requires Reachable(c, s.graph)
    ensures Reachable(c, SysApply(s, call).sys.graph) && Reachable(c, Midway(s, call).graph)
  {
    if call.Lifecycle? {
      LifecycleIsReachable(c, s, call.op);
      if call.op.RecordIntegration? { PerformIsReachable(c, s, Op.BeginIntegration(call.op.id)); }
    }
  }

  /** The graph in memory, and every graph any crash can go back to, is one a forward
      run reaches without a crash: everything proved of those holds of it. */
  lemma {:induction false} EveryGraphIsReachable(c: Setup, steps: seq<Step>, i: nat)
    requires WellShaped(c.def)
    ensures After(c, steps).Live? ==> Reachable(c, After(c, steps).sys.graph)
    ensures i < |LogOf(After(c, steps))| && LogOf(After(c, steps))[i].Checkpoint? ==>
              Reachable(c, GraphOf(c.def, LogOf(After(c, steps))[i].state.graph))
    decreases |steps|
  {
    if steps == [] {
      assert Forward([]) && Run(Fresh(c.runId, c.def), []) == Fresh(c.runId, c.def);
      assert GraphOf(c.def, ToDict(Start(c).graph)) == Start(c).graph;
    } else {
      var fewer, step := steps[..|steps| - 1], steps[|steps| - 1];
      EveryGraphIsReachable(c, fewer, i);
      LogsGrow(c, steps);
      var before := Earlier(c, steps);
      if before.Live? && !step.Restart? {
        CallIsReachable(c, before.sys, step.call);
        NewGraphIsReachable(c, steps, i);
      } else if before.Down? && step.Restart? && Openable(before.log, c.runId, c.def) {
        EveryGraphIsReachable(c, fewer, LastCheckpoint(before.log).value);
      }
    }
  }

  lemma NewGraphIsReachable(c: Setup, steps: seq<Step>, i: nat)
    requires WellShaped(c.def) && steps != [] && Earlier(c, steps).Live? && !steps[|steps| - 1].Restart?
    requires var s, call := Earlier(c, steps).sys, steps[|steps| - 1].call;
             Reachable(c, SysApply(s, call).sys.graph) && Reachable(c, Midway(s, call).graph)
    ensures |LogOf(Earlier(c, steps))| <= i < |LogOf(After(c, steps))| && LogOf(After(c, steps))[i].Checkpoint? ==>
              Reachable(c, GraphOf(c.def, LogOf(After(c, steps))[i].state.graph))
  {
    if |LogOf(Earlier(c, steps))| <= i < |LogOf(After(c, steps))| && LogOf(After(c, steps))[i].Checkpoint? {
      var s, call := Earlier(c, steps).sys, steps[|steps| - 1].call;
      NewCheckpoint(c, steps, i);
      EveryHistory(c, steps[..|steps| - 1]);
      CallSound(c.runId, s, call);
      MidwayKeepsDef(c.runId, s, call);
      var state := LogOf(After(c, steps))[i].state;
      assert GraphOf(c.def, ToDict(SysApply(s, call).sys.graph)) == SysApply(s, call).sys.graph;
      assert GraphOf(c.def, ToDict(Midway(s, call).graph)) == Midway(s, call).graph;
    }
  }

  lemma MidwayKeepsDef(runId: string, s: Sys, call: SysOp)
    requires LiveSound(runId, s)
    ensures Midway(s, call).graph.def == s.graph.def
  {
    CallSound(runId, s, call);
    if call.Lifecycle? && call.op.RecordIntegration? { PerformSound(runId, s, Op.BeginIntegration(call.op.id)); }
  }
}
