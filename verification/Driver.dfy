/** The driver object: it asks a provider for role results, applies them to the
    system, and stops when the root is closed or a result is refused. */
module Driver {
  import opened Basics
  import opened Workflow
  import opened RunGraphObject
  import opened GraphInvariant
  import opened Closure
  import opened Counting
  import opened System
  import opened DriverSteps
  import opened DriverRun

  datatype Ending = Complete | Stopped(status: RunStatus)

  datatype DriverOutcome = DriverOutcome(ending: Ending, actions: nat, root: Id)

  class LoopDriver {
    const system: LoopstrapSystem
    const provider: Provider

    constructor (system: LoopstrapSystem, provider: Provider)
      ensures this.system == system && this.provider == provider
    {
      this.system, this.provider := system, provider;
    }

    /** The one root Cell; a graph with none or several is refused. */
    method FindRoot() returns (root: Option<Id>)
      ensures root.Some? ==> IsRoot(system.graph.State(), root.value)
      ensures root.Some? <==> exists r :: OnlyRoot(system.graph.State(), r)
    {
      var g := system.graph.State();
      var roots := set id | id in g.cells && IsRoot(g, id);
      forall r | OnlyRoot(g, r) ensures roots == {r} {}
      if |roots| != 1 { return None; }
      var r :| r in roots;
      forall q | IsRoot(g, q) ensures q == r {
        if q != r { SubsetSize({q, r}, roots); }
      }
      assert OnlyRoot(g, r);
      root := Some(r);
    }

    /** The first runnable Cell of a listing. */
    method ScanInOrder(order: seq<Id>) returns (next: NextAction)
      requires forall i | 0 <= i < |order| :: order[i] in system.graph.cells
      ensures next == Scan(system.graph.State(), order)
    {
      var g := system.graph.State();
      for n := 0 to |order|
        invariant Scan(g, order) == Scan(g, order[n..])
      {
        var id := order[n];
        assert order[n..][1..] == order[n + 1..];
        if g.Kind(id) == Closed { continue; }
        if g.Kind(id) == Children {
          if g.cells[id].children == [] { return Undecomposed; }
          if ChildrenClosed(g, g.cells[id]) { return Integrate(id); }
          continue;
        }
        return Ask(id);
      }
      next := Idle;
    }

    method Next() returns (next: NextAction)
      ensures next == NextOf(system.graph.State())
    {
      next := ScanInOrder(Schedule(system.graph.State()));
    }

    /** Rehearse a pre-review on a copy, then record it and split the Cell. */
    method ApplyPreReview(id: Id, leaf: bool, seams: seq<string>, children: seq<ChildSpec>)
      returns (r: Option<Error>)
      requires system.graph.Named()
      modifies system, system.graph
      ensures system.graph.Named()
      ensures SysOutcome(system.Value(), r) == ActPreReview(old(system.Value()), id, leaf, seams, children)
    {
      var trial := new RunGraph.Copy(system.graph);
      r := trial.RecordPreReview(id, true, leaf, seams);
      if r.Some? { return; }
      if !leaf {
        r := trial.Decompose(id, children);
        if r.Some? { return; }
      }
      r := system.RecordPreReview(id, true, leaf, seams);
      if r.Some? { return; }
      if !leaf { r := system.Decompose(id, children); }
    }

    method ApplyPostReview(id: Id, refs: seq<string>) returns (r: Option<Error>)
      requires system.graph.Named()
      modifies system, system.graph
      ensures system.graph.Named()
      ensures SysOutcome(system.Value(), r) == ActPostReview(old(system.Value()), id, refs)
    {
      r := system.RecordPostReview(id, true, refs);
      if r.Some? { return; }
      r := system.Close(id);
    }

    method ApplyResult(id: Id, kind: Kind, result: RoleResult) returns (r: Option<Error>)
      requires system.graph.Named()
      modifies system, system.graph
      ensures system.graph.Named()
      ensures SysOutcome(system.Value(), r) == Act(old(system.Value()), id, kind, result)
    {
      if !Acceptable(kind, result) { return Some(SchemaError); }
      if kind == Contract {
        r := system.AcceptContract(id);
      } else if kind == Tests {
        r := system.FreezeTests(id, TestBasis(result.visible, result.holdout, result.obligationMap, true));
      } else if kind == Plan {
        r := system.RecordPlan(id, result.planDigest, result.responsibilities);
      } else if kind == PreReview {
        r := ApplyPreReview(id, result.leaf, result.seams, if result.leaf then [] else result.children);
      } else if kind == Implementation {
        r := system.RecordVerification(id, true, result.refs);
      } else if kind == Integration {
        r := system.RecordIntegration(id, true, result.refs);
      } else {
        r := ApplyPostReview(id, result.refs);
      }
    }

    method Step(n: nat) returns (r: Option<Error>)
      requires system.graph.Named()
      modifies system, system.graph
      ensures system.graph.Named()
      ensures SysOutcome(system.Value(), r) == StepOf(old(system.Value()), provider, n)
    {
      var next := Next();
      match next
      case Integrate(id) => r := system.BeginIntegration(id);
      case Ask(id) =>
        if id !in system.graph.cells { return Some(SchemaError); }
        var kind := system.graph.Kind(id);
        var result := provider(n, Request(system.graph.State(), id));
        r := ApplyResult(id, kind, result);
      case _ => r := Some(SchemaError);
    }

    /** One turn of the loop: a refused action parks the run. */
    method Turn(n: nat) returns (r: Option<Error>)
      requires system.graph.Named()
      modifies system, system.graph
      ensures system.graph.Named()
      ensures SysOutcome(system.Value(), r) == TurnOf(old(system.Value()), provider, n)
    {
      r := Step(n);
      if r.Some? { var _ := system.Park(REFUSAL); }
    }

    /** The driver loop, on a fresh run or one that was parked, resumed or opened
        again. It ends because the actions count the progress of the Cells, which a
        depth-limited decomposition bounds. */
    method Run(ghost root: Id, ghost depth: nat) returns (o: DriverOutcome)
      requires system.graph.Named() && Standing(system.Value(), root, depth) && StopsAt(provider, depth)
      modifies system, system.graph
      ensures o.root == root && RunEnds(old(system.Value()), system.Value(), o.ending, o.actions, root, depth)
    {
      ghost var start := system.Value();
      RunBegins(start, root, depth);
      var found := FindRoot();
      assert OnlyRoot(system.graph.State(), root);
      var top := found.value;
      var actions := 0;
      while true
        invariant system.graph.Named() && Going(start, system.Value(), actions, root, depth)
        invariant system.status == Active == start.status || system.Value() == start
        decreases Bound(start, root, depth) - actions
      {
        ghost var now := system.Value();
        if system.status != Active {
          NotStarted(start, root, depth);
          return DriverOutcome(Stopped(system.status), actions, top);
        }
        if system.graph.Kind(top) == Closed {
          RunCompletes(start, now, actions, root, depth);
          return DriverOutcome(Complete, actions, top);
        }
        GoingIsBounded(start, now, actions, root, depth);
        TurnIsTaken(start, now, provider, actions, root, depth);
        var refused := Turn(actions);
        if refused.Some? { return DriverOutcome(Stopped(Parked), actions, top); }
        actions := actions + 1;
      }
    }
  }

  ghost predicate OnlyRoot(g: Graph, r: Id) {
    IsRoot(g, r) && forall q {:trigger IsRoot(g, q)} :: IsRoot(g, q) ==> q == r
  }

  // ---------- what a stretch of a run keeps ----------

  /** No crash cut an event off that was not redone, and no composite waits. */
  ghost predicate Orderly(s: Sys) {
    Clean(s) && DriverInv(s.graph)
  }

  ghost predicate Continues(start: Sys, now: Sys, root: Id, depth: nat) {
    && Standing(now, root, depth) && (Orderly(start) ==> Orderly(now))
    && now.graph.def == start.graph.def && now.graph.runId == start.graph.runId && now.roles == start.roles
    && start.log <= now.log && SavesStanding(start.graph.def, root, depth, |start.log|, now.log)
    && root in start.graph.cells && now.graph.cells[root].obligations == start.graph.cells[root].obligations
  }

  /** All the progress the root's obligations and the depth allow. */
  ghost function Bound(start: Sys, root: Id, depth: nat): int
    requires root in start.graph.cells
  {
    |SetOf(start.graph.cells[root].obligations)| * (7 * depth + 6)
  }

  /** Actions are progress, up to one Cell moved by a refused last turn, which an
      orderly run does not have; and they are bounded. */
  ghost predicate Counted(start: Sys, now: Sys, actions: int, root: Id, depth: nat)
    requires root in start.graph.cells
  {
    && actions <= Total(now.graph) - Total(start.graph) <= actions + 1
    && (Orderly(start) ==> actions == Total(now.graph) - Total(start.graph))
    && Total(start.graph) + actions <= Bound(start, root, depth)
  }

  /** How a run can end: not begun on an inactive system; complete, with the root
      delivering and six actions a leaf and seven a composite; or parked. */
  ghost predicate RunEnds(start: Sys, now: Sys, ending: Ending, actions: int, root: Id, depth: nat) {
    && Continues(start, now, root, depth) && Counted(start, now, actions, root, depth)
    && (start.status != Active ==> ending == Stopped(start.status) && now == start && actions == 0)
    && (start.status == Active ==> ending == Complete || (ending == Stopped(Parked) && now.status == Parked))
    && (ending == Complete ==>
          && now.graph.IsClosed(root) && Delivers(now.graph, root)
          && actions == Total(now.graph) - Total(start.graph)
          && Total(now.graph) == 6 * |Leaves(now.graph)| + 7 * |Composites(now.graph)|)
  }

  /** Between two turns. */
  ghost predicate Going(start: Sys, now: Sys, actions: int, root: Id, depth: nat) {
    && Continues(start, now, root, depth)
    && actions == Total(now.graph) - Total(start.graph) && Total(now.graph) <= Bound(start, root, depth)
  }

  lemma ContinuesOn(start: Sys, before: Sys, after: Sys, root: Id, depth: nat)
    requires Continues(start, before, root, depth) && Continues(before, after, root, depth)
    ensures Continues(start, after, root, depth)
  {
    SplitFollows(start, before, SysOutcome(after, None), root, depth);
  }

  lemma RunBegins(s: Sys, root: Id, depth: nat)
    requires Standing(s, root, depth)
    ensures OnlyRoot(s.graph, root) && Going(s, s, 0, root, depth)
  {
    TotalIsBounded(s.graph, root, depth);
  }

  lemma GoingIsBounded(start: Sys, now: Sys, actions: int, root: Id, depth: nat)
    requires Going(start, now, actions, root, depth)
    ensures root in start.graph.cells && actions <= Bound(start, root, depth) && IsRoot(now.graph, root)
  {
    TotalIsNat(start.graph);
  }

  lemma TotalIsNat(g: Graph)
    ensures Total(g) >= 0
  {
    SumIsNat(g.cells.Keys, ProgressIn(g));
  }

  lemma NotStarted(s: Sys, root: Id, depth: nat)
    requires Standing(s, root, depth) && s.status != Active
    ensures RunEnds(s, s, Stopped(s.status), 0, root, depth)
  {
    RunBegins(s, root, depth);
  }

  lemma RunCompletes(start: Sys, s: Sys, actions: int, root: Id, depth: nat)
    requires Going(start, s, actions, root, depth) && start.status == Active && s.graph.IsClosed(root)
    ensures RunEnds(start, s, Complete, actions, root, depth)
  {
    ClosedGraphDelivers(s.graph, root);
    CompletedTotal(s.graph, root);
  }

  /** One turn of the loop, stuck or not. */
  lemma TakesTurn(s: Sys, provider: Provider, n: nat, root: Id, depth: nat)
    requires Standing(s, root, depth) && s.status == Active && StopsAt(provider, depth)
    requires Open(s.graph, root)
    ensures var o := StepOf(s, provider, n);
            && Continues(s, o.sys, root, depth) && o.sys.status == Active
            && (o.error == None ==> Total(o.sys.graph) == Total(s.graph) + 1)
            && (o.error.Some? ==> Total(s.graph) <= Total(o.sys.graph) <= Total(s.graph) + 1)
            && (o.error.Some? && Orderly(s) ==> Total(o.sys.graph) == Total(s.graph))
  {
    if DriverInv(s.graph) {
      StepTurns(s, provider, n, root, depth);
    } else {
      StuckStep(s, provider, n);
    }
  }

  lemma TurnGoesOn(start: Sys, s: Sys, provider: Provider, actions: nat, root: Id, depth: nat)
    requires Going(start, s, actions, root, depth) && s.status == Active && StopsAt(provider, depth)
    requires Open(s.graph, root)
    ensures var o := StepOf(s, provider, actions);
            && o.sys.status == Active && Continues(start, o.sys, root, depth)
            && (o.error == None ==> Going(start, o.sys, actions + 1, root, depth))
            && Counted(start, o.sys, if o.error == None then actions + 1 else actions, root, depth)
  {
    var o := StepOf(s, provider, actions);
    TakesTurn(s, provider, actions, root, depth);
    ContinuesOn(start, s, o.sys, root, depth);
    TotalIsBounded(o.sys.graph, root, depth);
  }

  lemma TurnParks(start: Sys, s: Sys, provider: Provider, actions: nat, root: Id, depth: nat)
    requires Going(start, s, actions, root, depth) && s.status == Active && StopsAt(provider, depth)
    requires Open(s.graph, root) && StepOf(s, provider, actions).error.Some?
    ensures var t := ParkRun(StepOf(s, provider, actions).sys, REFUSAL).sys;
            t.status == Parked && (start.status == Active ==> RunEnds(start, t, Stopped(Parked), actions, root, depth))
  {
    TurnGoesOn(start, s, provider, actions, root, depth);
    var after := StepOf(s, provider, actions).sys;
    ParkStands(after, REFUSAL, root, depth);
    ContinuesOn(start, after, ParkRun(after, REFUSAL).sys, root, depth);
  }

  /** What the turn makes of the system, the parking included. */
  lemma TurnIsTaken(start: Sys, s: Sys, provider: Provider, actions: nat, root: Id, depth: nat)
    requires Going(start, s, actions, root, depth) && s.status == Active && StopsAt(provider, depth)
    requires Open(s.graph, root) && start.status == Active
    ensures var o := TurnOf(s, provider, actions);
            if o.error == None then o.sys.status == Active && Going(start, o.sys, actions + 1, root, depth)
            else o.sys.status == Parked && RunEnds(start, o.sys, Stopped(Parked), actions, root, depth)
  {
    TurnGoesOn(start, s, provider, actions, root, depth);
    if StepOf(s, provider, actions).error.Some? { TurnParks(start, s, provider, actions, root, depth); }
  }

  /** From a fresh root: at most seven actions a level and obligation, and exactly six
      a leaf and seven a composite if the run completes. */
  lemma FreshRunCounts(start: Sys, now: Sys, ending: Ending, actions: int, root: Id, depth: nat)
    requires Orderly(start) && Total(start.graph) == 0 && RunEnds(start, now, ending, actions, root, depth)
    ensures actions == Total(now.graph) && actions <= |SetOf(start.graph.cells[root].obligations)| * (7 * depth + 6)
    ensures ending == Complete ==> actions == 6 * |Leaves(now.graph)| + 7 * |Composites(now.graph)|
  {}
}
