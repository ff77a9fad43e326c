/** What closing the root means in a run without reopening, test revision or
    issue routing: every Cell below is closed, and every obligation of the root
    rests with exactly one verified, tested leaf. */
module Closure {
  import opened Basics
  import opened Workflow
  import opened GraphInvariant

  // ----------------------------------------------------- forward-only graphs

  ghost predicate ForwardAt(g: Graph, id: Id)
    requires id in g.cells
  {
    var c := g.cells[id];
    var kind := g.def.KindOf(c.phase);
    && (c.children != [] ==> kind in {Children, Integration, PostReview, Closed} && c.leaf == Some(false))
    && (kind in {Integration, PostReview, Closed} ==> ChildrenClosed(g, c))
  }

  ghost predicate ForwardInv(g: Graph) {
    Inv(g) && forall id {:trigger ForwardAt(g, id)} | id in g.cells :: ForwardAt(g, id)
  }

  ghost predicate StayClosed(g: Graph, g': Graph) {
    forall id | g.IsClosed(id) :: g'.IsClosed(id)
  }

  lemma AdvanceKeepsForward(g: Graph, g': Graph, id: Id)
    requires ForwardInv(g) && Rewrites(g, g', id) && Advances(g, g', id)
    ensures ForwardInv(g') && StayClosed(g, g')
  {
    RewriteKeepsInv(g, g', id);
    assert StayClosed(g, g');
    forall k | k in g'.cells ensures ForwardAt(g', k) {
      assert ForwardAt(g, k);
      if k != id {
        assert g'.cells[k] == g.cells[k];
      }
    }
  }

  lemma DecomposedForwardAt(g: Graph, g': Graph, c: Cell, children: seq<ChildSpec>, id: Id)
    requires c.cellId in g.cells && c == g.cells[c.cellId] && Decomposed(g, g', c, children) && id in g'.cells
    requires g.def.KindOf(g.def.initial) == Contract && g.def.KindOf(c.phase) == Children && c.leaf == Some(false)
    requires id in g.cells ==> ForwardAt(g, id)
    ensures ForwardAt(g', id) && (g.IsClosed(id) ==> g'.IsClosed(id))
  {
    if id !in g.cells {
      var i :| 0 <= i < |children| && ChildIds(children)[i] == id;
    }
  }

  lemma DecomposeKeepsForward(g: Graph, c: Cell, children: seq<ChildSpec>)
    requires ForwardInv(g) && c.cellId in g.cells && c == g.cells[c.cellId]
    ensures var g' := DecomposeOp(g, c, children).graph; ForwardInv(g') && StayClosed(g, g')
  {
    var g' := DecomposeOp(g, c, children).graph;
    DecomposeKeepsInv(g, c, children);
    if DecomposeOp(g, c, children).error == None {
      DecomposeEffect(g, c, children);
      forall k | k in g'.cells ensures ForwardAt(g', k) && (g.IsClosed(k) ==> g'.IsClosed(k)) {
        assert k in g.cells ==> ForwardAt(g, k);
        DecomposedForwardAt(g, g', c, children, k);
      }
    }
  }

  lemma ForwardStep(g: Graph, op: Op)
    requires ForwardInv(g) && !Backward(op)
    ensures ForwardInv(Apply(g, op).graph) && StayClosed(g, Apply(g, op).graph)
  {
    var g' := Apply(g, op).graph;
    if op.CreateRoot? {
      RootKeepsInv(g, op);
      if g' != g {
        assert g'.cells.Keys == {op.id};
        assert ForwardAt(g', op.id);
      }
    } else if op.id in g.cells {
      assert ConsistentAt(g, op.id);
      if op.Decompose? {
        DecomposeKeepsForward(g, g.cells[op.id], op.children);
      } else {
        CellStepRewrites(g, g.cells[op.id], op);
        AdvanceKeepsForward(g, g', op.id);
      }
    }
  }

  lemma {:induction false} ForwardRun(g: Graph, ops: seq<Op>)
    requires ForwardInv(g) && Forward(ops)
    ensures ForwardInv(Run(g, ops)) && StayClosed(g, Run(g, ops))
  {
    if ops != [] {
      ForwardRun(g, ops[..|ops| - 1]);
      ForwardStep(Run(g, ops[..|ops| - 1]), ops[|ops| - 1]);
    }
  }

  // -------------------------------------------------------------- reachability

  /** A walk down children lists. */
  ghost predicate Path(g: Graph, p: seq<Id>) {
    && p != []
    && (forall i | 0 <= i < |p| :: p[i] in g.cells)
    && forall i | 0 <= i < |p| - 1 :: p[i + 1] in g.cells[p[i]].children
  }

  ghost predicate Reaches(g: Graph, a: Id, b: Id) {
    exists p :: Path(g, p) && p[0] == a && p[|p| - 1] == b
  }

  ghost predicate IsLeafFor(g: Graph, a: Id, leaf: Id, o: Id) {
    Reaches(g, a, leaf) && leaf in g.cells && g.cells[leaf].children == [] && o in g.cells[leaf].obligations
  }

  lemma {:induction false} PathStaysClosed(g: Graph, p: seq<Id>)
    requires ForwardInv(g) && Path(g, p) && g.IsClosed(p[0])
    ensures g.IsClosed(p[|p| - 1])
  {
    if |p| > 1 {
      assert ForwardAt(g, p[0]);
      assert p[1..][|p| - 2] == p[|p| - 1];
      PathStaysClosed(g, p[1..]);
    }
  }

  lemma {:induction false} PathNarrows(g: Graph, p: seq<Id>, o: Id)
    requires Inv(g) && Path(g, p) && o in g.cells[p[|p| - 1]].obligations
    ensures o in g.cells[p[0]].obligations
  {
    if |p| > 1 {
      assert p[1..][|p| - 2] == p[|p| - 1];
      PathNarrows(g, p[1..], o);
      assert Split(g, p[0]) && Placed(g, p[1]);
      assert o in SetOf(g.cells[p[1]].obligations);
    }
  }

  /** Two leaves below the same Cell never share an obligation. */
  lemma {:induction false} LeafIsUnique(g: Graph, p: seq<Id>, q: seq<Id>, o: Id)
    requires Inv(g) && Path(g, p) && Path(g, q) && p[0] == q[0]
    requires g.cells[p[|p| - 1]].children == [] && g.cells[q[|q| - 1]].children == []
    requires o in g.cells[p[|p| - 1]].obligations && o in g.cells[q[|q| - 1]].obligations
    ensures p[|p| - 1] == q[|q| - 1]
  {
    assert |p| > 1 ==> p[1] in g.cells[p[0]].children;
    assert |q| > 1 ==> q[1] in g.cells[q[0]].children;
    if |p| > 1 && |q| > 1 {
      var p', q' := p[1..], q[1..];
      assert p'[|p'| - 1] == p[|p| - 1] && q'[|q'| - 1] == q[|q| - 1];
      PathNarrows(g, p', o);
      PathNarrows(g, q', o);
      assert Split(g, p[0]);
      assert o in SetOf(g.cells[p[1]].obligations) && o in SetOf(g.cells[q[1]].obligations);
      LeafIsUnique(g, p', q', o);
    }
  }

  ghost function Deeper(g: Graph, depth: nat): set<Id> {
    set id | id in g.cells && g.cells[id].depth > depth
  }

  /** Going down to the child that owns an obligation ends at a leaf. */
  lemma {:induction false} LeafExists(g: Graph, id: Id, o: Id) returns (p: seq<Id>)
    requires Inv(g) && id in g.cells && o in g.cells[id].obligations
    ensures Path(g, p) && p[0] == id
    ensures g.cells[p[|p| - 1]].children == [] && o in g.cells[p[|p| - 1]].obligations
    decreases |Deeper(g, g.cells[id].depth)|
  {
    assert Split(g, id);
    if g.cells[id].children == [] {
      p := [id];
    } else {
      var k :| k in g.cells[id].children && o in g.cells[k].obligations;
      assert Placed(g, k);
      var above, below := Deeper(g, g.cells[id].depth), Deeper(g, g.cells[k].depth);
      assert below <= above && k in above && k !in below;
      SubsetSize(below, above);
      var rest := LeafExists(g, k, o);
      p := [id] + rest;
      assert p[|p| - 1] == rest[|rest| - 1];
    }
  }

  // ----------------------------------------------------------- the main result

  /** A leaf that carries its obligations home. */
  ghost predicate Delivered(c: Cell, o: Id) {
    && c.verificationPassed && c.postReviewAccepted
    && LeafReadiness(c) == []
    && o in c.obligationMap && c.obligationMap[o] != []
  }

  lemma ClosedLeafDelivers(g: Graph, leaf: Id, o: Id)
    requires Inv(g) && g.IsClosed(leaf) && g.cells[leaf].children == [] && o in g.cells[leaf].obligations
    ensures Delivered(g.cells[leaf], o)
  {
    assert ConsistentAt(g, leaf);
    NothingMissingIsReady(g.cells[leaf]);
    assert o in SetOf(g.cells[leaf].obligations);
  }

  /** Everything below the root is closed and each root obligation has exactly
      one leaf, which delivers it. */
  ghost predicate Delivers(g: Graph, root: Id)
    requires root in g.cells
  {
    && (forall x | Reaches(g, root, x) :: g.IsClosed(x))
    && forall o | o in g.cells[root].obligations ::
         exists leaf :: IsLeafFor(g, root, leaf, o) && Delivered(g.cells[leaf], o)
                        && forall other | IsLeafFor(g, root, other, o) :: other == leaf
  }

  lemma ClosedGraphDelivers(g: Graph, root: Id)
    requires ForwardInv(g) && g.IsClosed(root)
    ensures Delivers(g, root)
  {
    forall x | Reaches(g, root, x) ensures g.IsClosed(x) {
      var p :| Path(g, p) && p[0] == root && p[|p| - 1] == x;
      PathStaysClosed(g, p);
    }
    forall o | o in g.cells[root].obligations
      ensures exists leaf :: IsLeafFor(g, root, leaf, o) && Delivered(g.cells[leaf], o)
                             && forall other | IsLeafFor(g, root, other, o) :: other == leaf
    {
      var p := LeafExists(g, root, o);
      var leaf := p[|p| - 1];
      assert IsLeafFor(g, root, leaf, o);
      ClosedLeafDelivers(g, leaf, o);
      forall other | IsLeafFor(g, root, other, o) ensures other == leaf {
        var q :| Path(g, q) && q[0] == root && q[|q| - 1] == other;
        LeafIsUnique(g, p, q, o);
      }
    }
  }

  /** A forward-only run that has closed its root has delivered. */
  lemma ClosedRootDelivers(runId: string, def: Definition, ops: seq<Op>, root: Id)
    requires WellShaped(def) && Forward(ops)
    requires Run(Fresh(runId, def), ops).IsClosed(root)
    ensures Delivers(Run(Fresh(runId, def), ops), root)
  {
    ForwardRun(Fresh(runId, def), ops);
    ClosedGraphDelivers(Run(Fresh(runId, def), ops), root);
  }
}
