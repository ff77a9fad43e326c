/** How much work a driver-built graph can hold. Every Cell has made a number of
    steps along its lifecycle; the total is bounded because Cells of one depth
    own disjoint obligations. */
module Counting {
  import opened Basics
  import opened Workflow
  import opened GraphInvariant
  import Ancestry
  import opened Closure

  // ------------------------------------------------------ driver-built graphs

  /** Every Cell but the root is in its parent's current children. */
  ghost predicate AttachedAt(g: Graph, id: Id)
    requires id in g.cells
  {
    var parent := g.cells[id].parent;
    parent.Some? ==> parent.value in g.cells && id in g.cells[parent.value].children
  }

  ghost predicate Attached(g: Graph) {
    && ForwardInv(g)
    && (forall id {:trigger AttachedAt(g, id)} | id in g.cells :: AttachedAt(g, id))
  }

  ghost predicate Populated(g: Graph, id: Id)
    requires id in g.cells
  {
    g.Kind(id) == Children ==> g.cells[id].children != []
  }

  /** What the driver keeps between actions. */
  ghost predicate DriverInv(g: Graph) {
    Attached(g) && forall id {:trigger Populated(g, id)} | id in g.cells :: Populated(g, id)
  }

  /** Between the two halves of a composite pre-review: Cell x is in its
      children phase and has no children yet. */
  ghost predicate HalfReviewed(g: Graph, x: Id) {
    && Attached(g)
    && x in g.cells && g.Kind(x) == Children && g.cells[x].children == []
    && forall id {:trigger Populated(g, id)} | id in g.cells && id != x :: Populated(g, id)
  }

  ghost predicate Shallow(g: Graph, id: Id, depth: nat)
    requires id in g.cells
  {
    g.cells[id].depth <= depth
  }

  ghost predicate NoDeeperThan(g: Graph, depth: nat) {
    forall id {:trigger Shallow(g, id, depth)} | id in g.cells :: Shallow(g, id, depth)
  }

  // ----------------------------------------------------------------- progress

  /** Driver actions a Cell has had: six for a finished leaf, seven for a
      finished composite. */
  function Progress(def: Definition, c: Cell): nat {
    match def.KindOf(c.phase)
    case Contract => 0
    case Tests => 1
    case Plan => 2
    case PreReview => 3
    case Implementation => 4
    case Children => 4
    case Integration => 5
    case PostReview => if c.children == [] then 5 else 6
    case Closed => if c.children == [] then 6 else 7
    case Other(_) => 0
  }

  ghost function ProgressIn(g: Graph): Id -> int {
    id => if id in g.cells then Progress(g.def, g.cells[id]) else 0
  }

  ghost function Total(g: Graph): int {
    Sum(g.cells.Keys, ProgressIn(g))
  }

  /** Rewriting one Cell changes the total by that Cell's change. */
  lemma RewriteTotal(g: Graph, g': Graph, id: Id)
    requires Rewrites(g, g', id)
    ensures Total(g') == Total(g) - Progress(g.def, g.cells[id]) + Progress(g.def, g'.cells[id])
  {
    assert g'.cells.Keys == g.cells.Keys;
    var others := g.cells.Keys - {id};
    SumRemove(g.cells.Keys, id, ProgressIn(g));
    SumRemove(g'.cells.Keys, id, ProgressIn(g'));
    SumCongruent(others, ProgressIn(g), ProgressIn(g'));
  }

  /** A decomposition adds Cells that have done nothing. */
  lemma DecomposeTotal(g: Graph, g': Graph, c: Cell, children: seq<ChildSpec>)
    requires Decomposed(g, g', c, children) && c.cellId in g.cells && c == g.cells[c.cellId]
    requires g.def.KindOf(c.phase) == Children && g.def.KindOf(g.def.initial) == Contract
    ensures Total(g') == Total(g)
  {
    var born := SetOf(ChildIds(children));
    forall id | id in born ensures id !in g.cells && ProgressIn(g')(id) == 0 {
      var i :| 0 <= i < |children| && ChildIds(children)[i] == id;
    }
    SumUnion(g.cells.Keys, born, ProgressIn(g'));
    SumConstant(born, ProgressIn(g'), 0);
    SumCongruent(g.cells.Keys, ProgressIn(g), ProgressIn(g'));
  }

  // -------------------------------------------------------------------- bound

  ghost function Level(g: Graph, depth: nat): set<Id> {
    set id | id in g.cells && g.cells[id].depth == depth
  }

  ghost function Above(g: Graph, depth: nat): set<Id> {
    set id | id in g.cells && g.cells[id].depth < depth
  }

  /** Two Cells of one depth own no common obligation. */
  lemma {:induction false} LevelIsDisjoint(g: Graph, a: Id, b: Id, o: Id)
    requires Attached(g) && a in g.cells && b in g.cells && g.cells[a].depth == g.cells[b].depth
    requires o in g.cells[a].obligations && o in g.cells[b].obligations
    ensures a == b
    decreases g.cells[a].depth
  {
    assert Placed(g, a) && Placed(g, b);
    if g.cells[a].depth == 0 {
      assert IsRoot(g, a) && IsRoot(g, b);
    } else {
      var p, q := g.cells[a].parent.value, g.cells[b].parent.value;
      assert o in SetOf(g.cells[a].obligations) && o in SetOf(g.cells[b].obligations);
      LevelIsDisjoint(g, p, q, o);
      assert AttachedAt(g, a) && AttachedAt(g, b) && Split(g, p);
    }
  }

  ghost function FirstObligation(g: Graph): Id -> Id {
    id => if id in g.cells && g.cells[id].obligations != [] then g.cells[id].obligations[0] else ""
  }

  lemma {:induction false} InjectiveImage(s: set<Id>, f: Id -> Id, target: set<Id>)
    requires forall a, b | a in s && b in s && f(a) == f(b) :: a == b
    requires forall a | a in s :: f(a) in target
    ensures |s| <= |target|
    decreases s
  {
    if s != {} {
      var x :| x in s;
      forall a | a in s - {x} ensures f(a) in target - {f(x)} {
        assert f(a) == f(x) ==> a == x;
      }
      InjectiveImage(s - {x}, f, target - {f(x)});
    }
  }

  lemma LevelSize(g: Graph, root: Id, depth: nat)
    requires Attached(g) && IsRoot(g, root)
    ensures |Level(g, depth)| <= |SetOf(g.cells[root].obligations)|
  {
    var f := FirstObligation(g);
    forall a | a in Level(g, depth) ensures f(a) in SetOf(g.cells[root].obligations) {
      assert Placed(g, a);
      Ancestry.RootIsCommon(g, root, a);
      assert f(a) in SetOf(g.cells[a].obligations);
    }
    forall a, b | a in Level(g, depth) && b in Level(g, depth) && f(a) == f(b) ensures a == b {
      assert Placed(g, a) && Placed(g, b);
      LevelIsDisjoint(g, a, b, f(a));
    }
    InjectiveImage(Level(g, depth), f, SetOf(g.cells[root].obligations));
  }

  lemma Widen(m: nat, n: nat, a: nat, k: nat)
    requires m <= n
    ensures n * a + m * k <= n * (a + k)
  {
    assert n * (a + k) == n * a + n * k;
    assert n * k == m * k + (n - m) * k;
  }

  lemma AboveGrows(g: Graph, depth: nat)
    ensures Sum(Above(g, depth + 1), ProgressIn(g)) ==
            Sum(Above(g, depth), ProgressIn(g)) + Sum(Level(g, depth), ProgressIn(g))
  {
    assert Above(g, depth + 1) == Above(g, depth) + Level(g, depth);
    SumUnion(Above(g, depth), Level(g, depth), ProgressIn(g));
  }

  lemma LevelAdds(above: int, level: int, size: nat, n: nat, depth: nat)
    requires above <= n * (7 * depth) && level <= size * 7 && size <= n
    ensures above + level <= n * (7 * (depth + 1))
  {
    Widen(size, n, 7 * depth, 7);
  }

  lemma {:induction false} TotalAbove(g: Graph, n: nat, depth: nat)
    requires forall d: nat {:trigger Level(g, d)} :: |Level(g, d)| <= n
    ensures Sum(Above(g, depth), ProgressIn(g)) <= n * (7 * depth)
  {
    if depth == 0 {
      assert Above(g, 0) == {};
    } else {
      TotalAbove(g, n, depth - 1);
      AboveGrows(g, depth - 1);
      SumAtMost(Level(g, depth - 1), ProgressIn(g), 7);
      LevelAdds(Sum(Above(g, depth - 1), ProgressIn(g)), Sum(Level(g, depth - 1), ProgressIn(g)),
                |Level(g, depth - 1)|, n, depth - 1);
    }
  }

  /** All the work of a graph no deeper than D on O root obligations. */
  lemma TotalIsBounded(g: Graph, root: Id, depth: nat)
    requires Attached(g) && IsRoot(g, root) && NoDeeperThan(g, depth)
    ensures Total(g) <= |SetOf(g.cells[root].obligations)| * (7 * depth + 6)
  {
    var n := |SetOf(g.cells[root].obligations)|;
    forall d: nat ensures |Level(g, d)| <= n {
      LevelSize(g, root, d);
    }
    TotalAbove(g, n, depth);
    forall id | id in Level(g, depth) ensures ProgressIn(g)(id) <= 6 {
      BottomIsChildless(g, depth, id);
    }
    SumAtMost(Level(g, depth), ProgressIn(g), 6);
    Widen(|Level(g, depth)|, n, 7 * depth, 6);
    AboveGrows(g, depth);
    AllAbove(g, depth);
  }

  lemma AllAbove(g: Graph, depth: nat)
    requires NoDeeperThan(g, depth)
    ensures g.cells.Keys == Above(g, depth + 1)
  {
    forall id | id in g.cells ensures id in Above(g, depth + 1) {
      assert Shallow(g, id, depth);
    }
  }

  lemma ChildIsDeeper(g: Graph, id: Id, k: Id)
    requires Attached(g) && id in g.cells && k in g.cells[id].children
    ensures k in g.cells && g.cells[k].depth == g.cells[id].depth + 1
  {
    assert Split(g, id);
    assert Placed(g, k);
  }

  lemma BottomIsChildless(g: Graph, depth: nat, id: Id)
    requires Attached(g) && NoDeeperThan(g, depth) && id in g.cells && g.cells[id].depth == depth
    ensures g.cells[id].children == []
  {
    forall k | k in g.cells ensures g.cells[k].depth <= depth {
      assert Shallow(g, k, depth);
    }
    if g.cells[id].children != [] {
      ChildIsDeeper(g, id, g.cells[id].children[0]);
    }
  }

  // --------------------------------------------------------------- completion

  ghost function Leaves(g: Graph): set<Id> {
    set id | id in g.cells && g.cells[id].children == []
  }

  ghost function Composites(g: Graph): set<Id> {
    set id | id in g.cells && g.cells[id].children != []
  }

  /** With the root closed, no Cell is left open. */
  lemma {:induction false} NothingIsOpen(g: Graph, root: Id, id: Id)
    requires Attached(g) && IsRoot(g, root) && g.IsClosed(root) && id in g.cells
    ensures g.IsClosed(id)
    decreases g.cells[id].depth
  {
    assert Placed(g, id) && AttachedAt(g, id);
    if g.cells[id].parent.Some? {
      var p := g.cells[id].parent.value;
      NothingIsOpen(g, root, p);
      assert ForwardAt(g, p);
    } else {
      assert IsRoot(g, id) && IsRoot(g, root);
    }
  }

  lemma CompletedTotal(g: Graph, root: Id)
    requires Attached(g) && IsRoot(g, root) && g.IsClosed(root)
    ensures Total(g) == 6 * |Leaves(g)| + 7 * |Composites(g)|
  {
    forall id | id in g.cells ensures g.IsClosed(id) {
      NothingIsOpen(g, root, id);
    }
    assert g.cells.Keys == Leaves(g) + Composites(g);
    SumUnion(Leaves(g), Composites(g), ProgressIn(g));
    SumConstant(Leaves(g), ProgressIn(g), 6);
    SumConstant(Composites(g), ProgressIn(g), 7);
  }
}
