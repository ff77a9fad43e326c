/** The run graph as the object it is: each operation updates the Cells and the
    event list in place, check by check, and is proved to have exactly the
    effect the Workflow module gives it, including what stays changed when it
    refuses half way. */
module RunGraphObject {
  import opened Basics
  import opened Workflow
  import opened GraphInvariant
  import Ancestry

  class RunGraph {
    const runId: string
    const def: Definition
    var cells: map<Id, Cell>
    var events: seq<GraphEvent>

    constructor (runId: string, def: Definition)
      ensures State() == Fresh(runId, def) && Named()
    {
      this.runId, this.def, cells, events := runId, def, map[], [];
    }

    /** deepcopy: an independent graph with the same contents. */
    constructor Copy(g: RunGraph)
      ensures State() == g.State()
      ensures g.Named() ==> Named()
    {
      runId, def, cells, events := g.runId, g.def, g.cells, g.events;
    }

    function State(): Graph
      reads this
    {
      Graph(runId, def, cells, events)
    }

    /** The dictionary key of a Cell is its id. */
    ghost predicate Named()
      reads this
    {
      forall id {:trigger cells[id].cellId} | id in cells :: cells[id].cellId == id
    }

    function Kind(id: Id): Kind
      requires id in cells
      reads this
    {
      def.KindOf(cells[id].phase)
    }

    method Emit(eventType: string, id: Id)
      requires id in cells && Named()
      modifies this`events
      ensures State() == Put(old(State()), cells[id], eventType)
    {
      events := events + [GraphEvent(eventType, id, cells[id].revision)];
      assert cells == cells[id := cells[id]];
    }

    method Store(id: Id, c: Cell)
      requires id in cells && c.cellId == id && Named()
      modifies this`cells
      ensures Named() && cells == old(cells)[id := c]
    {
      cells := cells[id := c];
    }

    method Move(id: Id, outcome: string) returns (r: Option<Error>)
      requires id in cells && Named()
      modifies this
      ensures Named()
      ensures Outcome(State(), r) == Transition(old(State()), old(cells[id]), outcome)
    {
      var target := def.Target(cells[id].phase, outcome);
      if target == None { return Some(TransitionError); }
      Store(id, cells[id].(phase := target.value, revision := cells[id].revision + 1));
      Emit("cell.transitioned", id);
      r := None;
    }

    method CreateRoot(id: Id, refs: References, obligations: seq<Id>, scope: seq<string>) returns (r: Option<Error>)
      requires Named()
      modifies this
      ensures Named() && Outcome(State(), r) == Apply(old(State()), Op.CreateRoot(id, refs, obligations, scope))
    {
      if cells != map[] { return Some(TransitionError); }
      if obligations == [] || !Distinct(obligations) { return Some(SchemaError); }
      cells := cells[id := NewCell(id, None, refs, obligations, if scope == [] then [id] else scope, 0,
                                   def.initial, None)];
      Emit("cell.created", id);
      r := None;
    }

    method AcceptContract(id: Id) returns (r: Option<Error>)
      requires Named()
      modifies this
      ensures Named() && Outcome(State(), r) == Apply(old(State()), Op.AcceptContract(id))
    {
      if id !in cells { return Some(SchemaError); }
      if Kind(id) != Contract { return Some(TransitionError); }
      r := Move(id, "accepted");
    }

    method FreezeTests(id: Id, b: TestBasis) returns (r: Option<Error>)
      requires Named()
      modifies this
      ensures Named() && Outcome(State(), r) == Apply(old(State()), Op.FreezeTests(id, b))
    {
      if id !in cells { return Some(SchemaError); }
      if Kind(id) != Tests { return Some(TransitionError); }
      if !GoodBasis(cells[id], b) { return Some(TransitionError); }
      Store(id, Frozen(cells[id], b));
      Emit("tests.frozen", id);
      r := Move(id, "frozen");
    }

    /** phase_for_kind: the phase of a kind, unless there are none or several. */
    method FindPhase(kind: Kind) returns (phase: Option<string>)
      ensures phase == PhaseForKind(def, kind)
    {
      var matches := def.PhasesOfKind(kind);
      PhaseForKindIsTheOne(def, kind);
      if |matches| != 1 { return None; }
      var p :| p in matches;
      phase := Some(p);
    }

    method ReviseTests(id: Id, b: TestBasis) returns (r: Option<Error>)
      requires Named()
      modifies this
      ensures Named() && Outcome(State(), r) == Apply(old(State()), Op.ReviseTests(id, b))
    {
      if id !in cells { return Some(SchemaError); }
      if !Truthy(cells[id].visibleTests) { return Some(TransitionError); }
      if !GoodBasis(cells[id], b) { return Some(TransitionError); }
      if cells[id].visibleTests == Some(b.visible) && cells[id].holdoutTests == Some(b.holdout)
         && cells[id].obligationMap == b.obligationMap {
        return Some(TransitionError);
      }
      Store(id, Unplanned(Frozen(cells[id], b)));
      r := ReturnTo(id, Plan, "tests.revised");
    }

    method ReturnTo(id: Id, kind: Kind, eventType: string) returns (r: Option<Error>)
      requires Named() && id in cells
      modifies this
      ensures Named()
      ensures var c := old(cells[id]);
              var p := PhaseForKind(old(State()).def, kind);
              if p.None? then r == Some(SchemaError) && State() == old(State())
              else r == None && State() == Put(old(State()), c.(phase := p.value, revision := c.revision + 1),
                  eventType)
    {
      var p := FindPhase(kind);
      if p == None { return Some(SchemaError); }
      Store(id, cells[id].(phase := p.value, revision := cells[id].revision + 1));
      Emit(eventType, id);
      r := None;
    }

    method RecordPlan(id: Id, planDigest: string, responsibilities: map<Id, string>) returns (r: Option<Error>)
      requires Named()
      modifies this
      ensures Named() && Outcome(State(), r) == Apply(old(State()), Op.RecordPlan(id, planDigest, responsibilities))
    {
      if id !in cells { return Some(SchemaError); }
      if Kind(id) != Plan { return Some(TransitionError); }
      if !GoodPlan(cells[id], responsibilities) { return Some(TransitionError); }
      Store(id, cells[id].(planDigest := Some(planDigest), responsibilities := responsibilities));
      Emit("plan.recorded", id);
      r := Move(id, "planned");
    }

    method RecordPreReview(id: Id, accepted: bool, leaf: bool, seams: seq<string>) returns (r: Option<Error>)
      requires Named()
      modifies this
      ensures Named() && Outcome(State(), r) == Apply(old(State()), Op.RecordPreReview(id, accepted, leaf, seams))
    {
      if id !in cells { return Some(SchemaError); }
      if Kind(id) != PreReview { return Some(TransitionError); }
      if !accepted { return Some(TransitionError); }
      if leaf && seams != [] { return Some(TransitionError); }
      Store(id, cells[id].(preReviewAccepted := true, leaf := Some(leaf), seams := seams));
      Emit("pre_review.recorded", id);
      r := Move(id, if leaf then "leaf" else "composite");
    }

    /** The obligation bookkeeping of a decomposition, child by child. */
    method SplitsObligations(c: Cell, children: seq<ChildSpec>) returns (ok: bool)
      ensures ok <==>
        && (forall i | 0 <= i < |children| :: GoodChild(c, children[i]))
        && (forall i, j | 0 <= i < j < |children| ::
              SetOf(children[i].obligations) !! SetOf(children[j].obligations))
        && Covered(children) == SetOf(c.obligations)
    {
      var taken: set<Id> := {};
      for n := 0 to |children|
        invariant taken == Covered(children[..n])
        invariant forall i | 0 <= i < n :: GoodChild(c, children[i])
        invariant forall i, j | 0 <= i < j < n ::
                    SetOf(children[i].obligations) !! SetOf(children[j].obligations)
      {
        var own := SetOf(children[n].obligations);
        if children[n].owner == "" { return false; }
        if own == {} || !(own <= SetOf(c.obligations)) {
          assert children[n].obligations != [] ==> children[n].obligations[0] in own;
          return false;
        }
        if !NarrowsScope(c.scope, children[n].scope) { return false; }
        if own * taken != {} {
          var o :| o in own * taken;
          var i :| 0 <= i < n && o in children[..n][i].obligations;
          assert o in SetOf(children[i].obligations) && o in own;
          return false;
        }
        forall i | 0 <= i < n ensures SetOf(children[i].obligations) !! own {
          forall o | o in SetOf(children[i].obligations) ensures o !in own {
            assert o in children[..n][i].obligations;
            assert o in taken;
            assert o !in own * taken;
          }
        }
        CoveredGrows(children, n);
        taken := taken + own;
      }
      assert children[..|children|] == children;
      ok := taken == SetOf(c.obligations);
    }

    lemma CoveredGrows(children: seq<ChildSpec>, n: nat)
      requires n < |children|
      ensures Covered(children[..n + 1]) == Covered(children[..n]) + SetOf(children[n].obligations)
    {
      var a, b := children[..n], children[..n + 1];
      forall o ensures o in Covered(b) <==> o in Covered(a) || o in children[n].obligations {
        if o in Covered(b) {
          var i :| 0 <= i < |b| && o in b[i].obligations;
          assert i < n ==> a[i] == b[i];
        }
        if o in Covered(a) {
          var i :| 0 <= i < |a| && o in a[i].obligations;
          assert b[i] == a[i];
        }
        assert b[n] == children[n];
      }
    }

    method CreateChildren(c: Cell, children: seq<ChildSpec>)
      requires Named() && forall i | 0 <= i < |children| :: children[i].cellId != c.cellId
      requires c.cellId in cells && cells[c.cellId] == c
      modifies this
      ensures Named() && State() == AddChildren(old(State()), c, children)
      ensures c.cellId in cells && cells[c.cellId] == c
    {
      for n := 0 to |children|
        invariant State() == AddChildren(old(State()), c, children[..n])
        invariant Named() && c.cellId in cells && cells[c.cellId] == c
      {
        assert children[..n + 1][..n] == children[..n];
        cells := cells[children[n].cellId := Child(def, c, children[n])];
        events := events + [GraphEvent("cell.created", children[n].cellId, cells[children[n].cellId].revision)];
      }
      assert children[..|children|] == children;
    }

    method Decompose(id: Id, children: seq<ChildSpec>) returns (r: Option<Error>)
      requires Named()
      modifies this
      ensures Named() && Outcome(State(), r) == Apply(old(State()), Op.Decompose(id, children))
    {
      if id !in cells { return Some(SchemaError); }
      var c := cells[id];
      if Kind(id) != Children { return Some(TransitionError); }
      if !c.preReviewAccepted || c.leaf != Some(false) { return Some(TransitionError); }
      if children == [] { return Some(DecompositionError); }
      var ids := ChildIds(children);
      if !Distinct(ids) || exists i :: 0 <= i < |children| && children[i].cellId in cells {
        return Some(DecompositionError);
      }
      var ok := SplitsObligations(c, children);
      if !ok { return Some(DecompositionError); }
      CreateChildren(c, children);
      Store(id, c.(children := ids, revision := c.revision + 1));
      Emit("cell.decomposed", id);
      r := None;
    }

    /** leaf_readiness builds its list one check at a time. */
    method ListMissing(id: Id) returns (missing: seq<Missing>)
      requires id in cells
      ensures missing == [] <==> Ready(cells[id])
      ensures missing == LeafReadiness(cells[id])
    {
      var c := cells[id];
      NothingMissingIsReady(c);
      missing := When(!Truthy(c.visibleTests) || !Truthy(c.holdoutTests), TestsFrozen);
      missing := missing + When(ObligationsUntested(c), ObligationsTested);
      missing := missing + When(c.responsibilities.Keys != SetOf(c.obligations), ResponsibilitiesMapped);
      missing := missing + When(Unowned(c), OwnerAssigned);
      missing := missing + When(!c.testsExecutable, TestsExecutable);
      missing := missing + When(c.seams != [] || c.leaf != Some(true), SeamsResolved);
      missing := missing + When(!c.preReviewAccepted, PreReviewAccepted);
    }

    method RecordVerification(id: Id, passed: bool, evidence: seq<string>) returns (r: Option<Error>)
      requires Named()
      modifies this
      ensures Named() && Outcome(State(), r) == Apply(old(State()), Op.RecordVerification(id, passed, evidence))
    {
      if id !in cells { return Some(SchemaError); }
      if Kind(id) != Implementation { return Some(TransitionError); }
      var missing := ListMissing(id);
      if missing != [] { return Some(TransitionError); }
      if !passed || evidence == [] { return Some(TransitionError); }
      Store(id, cells[id].(verificationPassed := true));
      Emit("verification.recorded", id);
      r := Move(id, "verified");
    }

    method AllClosed(ids: seq<Id>) returns (ok: bool)
      ensures ok <==> forall k | k in ids :: State().IsClosed(k)
    {
      for n := 0 to |ids|
        invariant forall k | 0 <= k < n :: State().IsClosed(ids[k])
      {
        if !State().IsClosed(ids[n]) { return false; }
      }
      ok := true;
    }

    method BeginIntegration(id: Id) returns (r: Option<Error>)
      requires Named()
      modifies this
      ensures Named() && Outcome(State(), r) == Apply(old(State()), Op.BeginIntegration(id))
      ensures old(id in cells) ==> id in cells
    {
      if id !in cells { return Some(SchemaError); }
      if Kind(id) != Children { return Some(TransitionError); }
      var closed := AllClosed(cells[id].children);
      if cells[id].children == [] || !closed { return Some(ClosureError); }
      r := Move(id, "integrated");
      if r == None && Kind(id) != Integration { r := Some(TransitionError); }
    }

    method RecordIntegration(id: Id, passed: bool, evidence: seq<string>) returns (r: Option<Error>)
      requires Named()
      modifies this
      ensures Named() && Outcome(State(), r) == Apply(old(State()), Op.RecordIntegration(id, passed, evidence))
    {
      if id !in cells { return Some(SchemaError); }
      if Kind(id) == Children {
        r := BeginIntegration(id);
        if r.Some? { return; }
      }
      if Kind(id) != Integration { return Some(TransitionError); }
      if !passed || evidence == [] { return Some(ClosureError); }
      Store(id, cells[id].(integrationPassed := true));
      Emit("verification.recorded", id);
      r := Move(id, "verified");
    }

    method RecordPostReview(id: Id, accepted: bool, evidence: seq<string>) returns (r: Option<Error>)
      requires Named()
      modifies this
      ensures Named() && Outcome(State(), r) == Apply(old(State()), Op.RecordPostReview(id, accepted, evidence))
    {
      if id !in cells { return Some(SchemaError); }
      if Kind(id) != PostReview { return Some(TransitionError); }
      if !accepted || evidence == [] { return Some(TransitionError); }
      Store(id, cells[id].(postReviewAccepted := true));
      Emit("post_review.recorded", id);
      r := None;
    }

    method AddClaim(id: Id, claimId: Id, claim: NewClaim) returns (r: Option<Error>)
      requires Named()
      modifies this
      ensures Named() && Outcome(State(), r) == Apply(old(State()), Op.AddClaim(id, claimId, claim))
      ensures old(id in cells) ==> id in cells
    {
      if id !in cells { return Some(SchemaError); }
      if claimId in cells[id].claims { return Some(SchemaError); }
      if claim.status != Some(Suspected) && claim.status != Some(Verified) { return Some(SchemaError); }
      if claim.status == Some(Verified) && claim.evidence == [] { return Some(SchemaError); }
      var recorded := Claim(claim.proposition, claim.status.value, claim.evidence, None, None);
      var c := cells[id];
      Store(id, c.(claims := c.claims[claimId := recorded], revision := c.revision + 1));
      Emit("claim.recorded", id);
      r := None;
    }

    method ResolveClaim(id: Id, claimId: Id, resolution: string, verification: string) returns (r: Option<Error>)
      requires Named()
      modifies this
      ensures Named()
      ensures Outcome(State(), r) == Apply(old(State()), Op.ResolveClaim(id, claimId, resolution, verification))
    {
      if id !in cells { return Some(SchemaError); }
      if claimId !in cells[id].claims { return Some(SchemaError); }
      var claim := cells[id].claims[claimId];
      if claim.status != Verified || resolution == "" || verification == "" { return Some(ClosureError); }
      claim := claim.(status := Resolved);
      claim := claim.(resolution := Some(resolution));
      claim := claim.(verification := Some(verification));
      var c := cells[id];
      Store(id, c.(claims := c.claims[claimId := claim], revision := c.revision + 1));
      Emit("claim.resolved", id);
      r := None;
    }

    method AddApproval(id: Id, reviewer: string) returns (r: Option<Error>)
      requires Named()
      modifies this
      ensures Named() && Outcome(State(), r) == Apply(old(State()), Op.AddApproval(id, reviewer))
    {
      if id !in cells { return Some(SchemaError); }
      Store(id, cells[id].(approvals := cells[id].approvals + [reviewer]));
      Emit("approval.recorded", id);
      r := None;
    }

    method Close(id: Id) returns (r: Option<Error>)
      requires Named()
      modifies this
      ensures Named() && Outcome(State(), r) == Apply(old(State()), Op.Close(id))
    {
      if id !in cells { return Some(SchemaError); }
      if Kind(id) != PostReview { return Some(ClosureError); }
      if HasBlockingClaim(cells[id]) { return Some(ClosureError); }
      if !cells[id].postReviewAccepted { return Some(ClosureError); }
      if cells[id].children != [] {
        var closed := AllClosed(cells[id].children);
        if !closed { return Some(ClosureError); }
        if !cells[id].integrationPassed { return Some(ClosureError); }
      } else if !cells[id].verificationPassed {
        return Some(ClosureError);
      }
      r := Move(id, "accepted");
      if r == None { Emit("cell.closed", id); }
    }

    method Reopen(id: Id) returns (r: Option<Error>)
      requires Named()
      modifies this
      ensures Named() && Outcome(State(), r) == Apply(old(State()), Op.Reopen(id))
    {
      if id !in cells { return Some(SchemaError); }
      if Kind(id) != Closed { return Some(TransitionError); }
      var p := FindPhase(PostReview);
      if p == None { return Some(SchemaError); }
      Store(id, cells[id].(phase := p.value, revision := cells[id].revision + 1));
      Emit("cell.reopened", id);
      r := None;
    }

    /** Follow parent links to the root. The tree makes the loop end. */
    method ListAncestors(id: Id) returns (walk: seq<Id>)
      requires id in cells && Tree(State())
      ensures walk == Ancestors(State(), id)
    {
      walk := [];
      var current := Some(id);
      while current.Some?
        invariant current.Some? ==> current.value in cells
        invariant Ancestors(State(), id) ==
                    walk + (if current.Some? then Ancestors(State(), current.value) else [])
        decreases if current.Some? then cells[current.value].depth + 1 else 0
      {
        assert Placed(State(), current.value);
        walk := walk + [current.value];
        current := cells[current.value].parent;
      }
    }

    /** Intersect the walks to the root and take a deepest common Cell, whichever
        one iteration over the set meets first. */
    method FindCommonAncestor(ids: seq<Id>) returns (target: Option<Id>)
      requires Tree(State())
      ensures target == LowestCommonAncestor(State(), ids)
      ensures target.Some? ==> target.value in cells
    {
      if ids == [] { return None; }
      if exists n :: 0 <= n < |ids| && ids[n] !in cells { return None; }
      var first := ListAncestors(ids[0]);
      var common := SetOf(first);
      for n := 1 to |ids|
        invariant common == set a | a in first && forall k | 0 <= k < n :: a in Ancestors(State(), ids[k])
      {
        var walk := ListAncestors(ids[n]);
        common := common * SetOf(walk);
      }
      forall a ensures a in common <==> a in cells && CommonAncestor(State(), ids, a) {
        if a in first { Ancestry.AncestorsWiden(State(), ids[0], a); }
      }
      Ancestry.RoutingTarget(State(), ids);
      ghost var lca := LowestCommonAncestor(State(), ids).value;
      assert lca in common;
      var best :| best in common && forall b | b in common :: cells[b].depth <= cells[best].depth;
      assert DeepestCommon(State(), ids, best);
      target := Some(best);
    }

    method Redirect(id: Id, claimId: Id, proposition: string, evidence: seq<string>) returns (r: Option<Error>)
      requires Named() && id in cells
      modifies this
      ensures Named()
      ensures Outcome(State(), r) == RouteTo(old(State()), old(cells[id]), claimId, proposition, evidence)
    {
      r := AddClaim(id, claimId, NewClaim(proposition, Some(Verified), evidence));
      if r.Some? { return; }
      var p := FindPhase(PreReview);
      if p == None { return Some(SchemaError); }
      Store(id, Routed(cells[id], claimId).(phase := p.value, revision := cells[id].revision + 1));
      Emit("cell.reopened_for_issue", id);
      r := None;
    }

    method RouteVerifiedIssue(affected: seq<Id>, claimId: Id, proposition: string, evidence: seq<string>)
      returns (target: Option<Id>, r: Option<Error>)
      requires Named() && Tree(State())
      modifies this
      ensures Named()
      ensures target == LowestCommonAncestor(old(State()), affected)
      ensures Outcome(State(), r) ==
              Apply(old(State()), Op.RouteVerifiedIssue(affected, claimId, proposition, evidence))
    {
      target := FindCommonAncestor(affected);
      if target == None { return None, Some(SchemaError); }
      r := Redirect(target.value, claimId, proposition, evidence);
    }
  }
}
