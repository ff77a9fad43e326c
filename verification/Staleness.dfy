/** Revisions as expiry dates: what was bound to a superseded revision of a Cell
    never binds again, in any run. */
module Staleness {
  import opened Basics
  import opened Workflow
  import opened GraphInvariant

  datatype Authorization = Authorization(
    authorizationId: string, runId: string, cellId: Id, revision: nat, role: string, treatment: string, act: string)

  datatype ControlView = ControlView(runId: string, cellId: Id, phase: string, revision: nat)

  function View(g: Graph, id: Id): ControlView
    requires id in g.cells
  {
    ControlView(g.runId, id, g.cells[id].phase, g.cells[id].revision)
  }

  predicate Validates(a: Authorization, view: ControlView, role: string, treatment: string) {
    && a.runId == view.runId
    && a.cellId == view.cellId
    && a.revision == view.revision
    && a.role == role
    && a.treatment == treatment
  }

  lemma {:induction false} RunInTwo(g: Graph, first: seq<Op>, rest: seq<Op>)
    ensures Run(g, first + rest) == Run(Run(g, first), rest)
  {
    if rest == [] {
      assert first + rest == first;
    } else {
      var n := |rest| - 1;
      assert (first + rest)[..|first + rest| - 1] == first + rest[..n];
      RunInTwo(g, first, rest[..n]);
    }
  }

  /** Between any two moments of a run a Cell's revision never falls, and an
      equal revision means an equal phase. */
  lemma RevisionsDatePhases(runId: string, def: Definition, ops: seq<Op>, early: nat, late: nat, id: Id)
    requires WellShaped(def) && early <= late <= |ops|
    requires id in Run(Fresh(runId, def), ops[..early]).cells
    ensures id in Run(Fresh(runId, def), ops[..late]).cells
    ensures var c := Run(Fresh(runId, def), ops[..early]).cells[id];
            var c' := Run(Fresh(runId, def), ops[..late]).cells[id];
            c.revision <= c'.revision && (c.revision == c'.revision ==> c.phase == c'.phase)
  {
    EveryRunKeepsInv(runId, def, ops[..early]);
    assert ops[..late] == ops[..early] + ops[early..late];
    RunInTwo(Fresh(runId, def), ops[..early], ops[early..late]);
    RunKeepsInv(Run(Fresh(runId, def), ops[..early]), ops[early..late]);
  }

  /** An authorization that still validates is not older than the Cell ever was,
      and if it validated before, the Cell has not changed phase since. */
  lemma AuthorizationsExpireForGood(runId: string, def: Definition, ops: seq<Op>, early: nat, late: nat,
                                    id: Id, a: Authorization, role: string, treatment: string)
    requires WellShaped(def) && early <= late <= |ops|
    requires id in Run(Fresh(runId, def), ops[..early]).cells
    requires id in Run(Fresh(runId, def), ops[..late]).cells
    requires Validates(a, View(Run(Fresh(runId, def), ops[..late]), id), role, treatment)
    ensures var was, now := Run(Fresh(runId, def), ops[..early]), Run(Fresh(runId, def), ops[..late]);
            && was.cells[id].revision <= a.revision
            && (a.revision == was.cells[id].revision ==> was.cells[id].phase == now.cells[id].phase)
  {
    RevisionsDatePhases(runId, def, ops, early, late, id);
  }
}
