/** Paths to the root and the Cell a verified issue is routed to. */
module Ancestry {
  import opened Basics
  import opened Workflow
  import opened GraphInvariant

  /** The walk to the root visits existing Cells, one per depth, and widens
      scope and obligations on the way. */
  lemma {:induction false} AncestorsWiden(g: Graph, id: Id, a: Id)
    requires Tree(g) && id in g.cells && a in Ancestors(g, id)
    ensures a in g.cells
    ensures g.cells[a].depth <= g.cells[id].depth
    ensures g.cells[a].depth == g.cells[id].depth ==> a == id
    ensures SetOf(g.cells[id].obligations) <= SetOf(g.cells[a].obligations)
    ensures a == id || NarrowsScope(g.cells[a].scope, g.cells[id].scope)
    decreases g.cells[id].depth
  {
    if a != id {
      assert Placed(g, id);
      var p := g.cells[id].parent.value;
      AncestorsWiden(g, p, a);
      if a != p {
        var s, t, u := g.cells[a].scope, g.cells[p].scope, g.cells[id].scope;
        assert u[..|s|] == u[..|t|][..|s|];
      }
    }
  }

  lemma {:induction false} OneAncestorPerDepth(g: Graph, id: Id, a: Id, b: Id)
    requires Tree(g) && id in g.cells && a in Ancestors(g, id) && b in Ancestors(g, id)
    requires a in g.cells && b in g.cells && g.cells[a].depth == g.cells[b].depth
    ensures a == b
    decreases g.cells[id].depth
  {
    AncestorsWiden(g, id, a);
    AncestorsWiden(g, id, b);
    if a != id {
      OneAncestorPerDepth(g, g.cells[id].parent.value, a, b);
    }
  }

  /** The walk ends at the root, never early. */
  lemma {:induction false} WalkEndsAtRoot(g: Graph, id: Id)
    requires Tree(g) && id in g.cells
    ensures var walk := Ancestors(g, id);
            && |walk| == g.cells[id].depth + 1
            && IsRoot(g, walk[|walk| - 1])
    decreases g.cells[id].depth
  {
    assert Placed(g, id);
    if g.cells[id].parent.Some? {
      var p := g.cells[id].parent.value;
      WalkEndsAtRoot(g, p);
      assert Ancestors(g, id) == [id] + Ancestors(g, p);
    } else {
      assert Ancestors(g, id) == [id];
    }
  }

  /** All Cells of a tree hang from its single root. */
  lemma RootIsCommon(g: Graph, root: Id, id: Id)
    requires Tree(g) && IsRoot(g, root) && id in g.cells
    ensures root in Ancestors(g, id)
    ensures SetOf(g.cells[id].obligations) <= SetOf(g.cells[root].obligations)
  {
    WalkEndsAtRoot(g, id);
    var walk := Ancestors(g, id);
    assert IsRoot(g, root) && IsRoot(g, walk[|walk| - 1]);
    AncestorsWiden(g, id, root);
  }

  lemma DeepestIsUnique(g: Graph, ids: seq<Id>, a: Id, b: Id)
    requires Tree(g) && ids != [] && forall id | id in ids :: id in g.cells
    requires DeepestCommon(g, ids, a) && DeepestCommon(g, ids, b)
    ensures a == b
  {
    assert ids[0] in ids;
    assert a in Ancestors(g, ids[0]) && b in Ancestors(g, ids[0]);
    OneAncestorPerDepth(g, ids[0], a, b);
  }

  /** A common ancestor exists, so the refusal for having none cannot happen. */
  lemma {:induction false} DeepestAmong(g: Graph, ids: seq<Id>, candidates: set<Id>)
    requires Tree(g) && forall id | id in ids :: id in g.cells
    requires candidates != {} && forall a | a in candidates :: a in g.cells && CommonAncestor(g, ids, a)
    ensures exists a :: a in candidates && forall b | b in candidates :: g.cells[b].depth <= g.cells[a].depth
    decreases candidates
  {
    var x :| x in candidates;
    if candidates != {x} {
      DeepestAmong(g, ids, candidates - {x});
      var y :| y in candidates - {x} && forall b | b in candidates - {x} :: g.cells[b].depth <= g.cells[y].depth;
      var best := if g.cells[x].depth <= g.cells[y].depth then y else x;
      forall b | b in candidates ensures g.cells[b].depth <= g.cells[best].depth {
        if b != x { assert b in candidates - {x}; }
      }
    }
  }

  /** The routing target exists whenever some known Cells are named, is their
      unique deepest common ancestor, and is the only answer any tie-breaking
      could give. */
  lemma RoutingTarget(g: Graph, ids: seq<Id>)
    requires Tree(g)
    ensures var lca := LowestCommonAncestor(g, ids);
            && (lca.Some? <==> ids != [] && forall id | id in ids :: id in g.cells)
            && (lca.Some? ==> DeepestCommon(g, ids, lca.value)
                              && forall a | DeepestCommon(g, ids, a) :: a == lca.value)
  {
    if ids != [] && forall id | id in ids :: id in g.cells {
      assert ids[0] in ids;
      WalkEndsAtRoot(g, ids[0]);
      var walk := Ancestors(g, ids[0]);
      var root := walk[|walk| - 1];
      forall id | id in ids ensures root in Ancestors(g, id) {
        RootIsCommon(g, root, id);
      }
      var common := set a | a in g.cells && CommonAncestor(g, ids, a);
      assert root in common;
      DeepestAmong(g, ids, common);
      var a :| a in common && forall b | b in common :: g.cells[b].depth <= g.cells[a].depth;
      assert DeepestCommon(g, ids, a) by {
        forall b | b in g.cells && CommonAncestor(g, ids, b) ensures g.cells[b].depth <= g.cells[a].depth {
          assert b in common;
        }
      }
      forall b | DeepestCommon(g, ids, b) ensures b == LowestCommonAncestor(g, ids).value {
        DeepestIsUnique(g, ids, b, LowestCommonAncestor(g, ids).value);
      }
    }
  }

  /** Naming the affected Cells in another order, or twice, changes nothing. */
  lemma RoutingIgnoresOrder(g: Graph, ids: seq<Id>, ids': seq<Id>)
    requires Tree(g) && SetOf(ids) == SetOf(ids')
    ensures LowestCommonAncestor(g, ids) == LowestCommonAncestor(g, ids')
  {
    RoutingTarget(g, ids);
    RoutingTarget(g, ids');
    assert forall x :: x in ids <==> x in SetOf(ids);
    assert forall x :: x in ids' <==> x in SetOf(ids');
    assert ids != [] <==> ids' != [] by {
      if ids != [] { assert ids[0] in SetOf(ids'); }
      if ids' != [] { assert ids'[0] in SetOf(ids); }
    }
    var lca := LowestCommonAncestor(g, ids);
    if lca.Some? {
      assert forall a :: CommonAncestor(g, ids, a) <==> CommonAncestor(g, ids', a);
      assert DeepestCommon(g, ids', lca.value);
    }
  }
}
