/** Depth-first search for a Cell contained in itself, over the relation from a
    Cell to the members of its interior. */
module Containment {
  import opened Basics

  /** Each known Cell and the known Cells directly inside it. */
  type Inside = map<Id, seq<Id>>

  /** The Cell's members are themselves listed. */
  ghost predicate Knows(inside: Inside, x: Id) {
    x in inside ==> forall k | 0 <= k < |inside[x]| :: inside[x][k] in inside
  }

  ghost predicate Closed(inside: Inside) {
    forall x {:trigger Knows(inside, x)} :: Knows(inside, x)
  }

  /** Position i of the walk is inside the position before it. */
  ghost predicate Hop(inside: Inside, p: seq<Id>, i: nat) {
    0 < i < |p| ==> p[i - 1] in inside && p[i] in inside[p[i - 1]]
  }

  ghost predicate Walk(inside: Inside, p: seq<Id>) {
    && (forall i | 0 <= i < |p| :: p[i] in inside)
    && forall i {:trigger Hop(inside, p, i)} :: Hop(inside, p, i)
  }

  /** A walk that comes back to where it started. */
  ghost predicate Cycle(inside: Inside, p: seq<Id>) {
    |p| >= 2 && Walk(inside, p) && p[0] == p[|p| - 1]
  }

  /** Everything directly inside x has a smaller height than x. */
  ghost predicate Below(inside: Inside, rank: map<Id, nat>, x: Id) {
    x in inside && x in rank ==>
      forall k | 0 <= k < |inside[x]| :: inside[x][k] in rank && rank[inside[x][k]] < rank[x]
  }

  ghost predicate Capped(rank: map<Id, nat>, n: nat, x: Id) {
    x in rank ==> rank[x] < n
  }

  /** A height below the number of Cells for every Cell, smaller inside than outside. */
  ghost predicate Ranks(inside: Inside, rank: map<Id, nat>) {
    && rank.Keys == inside.Keys
    && (forall x {:trigger Capped(rank, |inside|, x)} :: Capped(rank, |inside|, x))
    && forall x {:trigger Below(inside, rank, x)} :: Below(inside, rank, x)
  }

  ghost predicate Ranked(inside: Inside) {
    exists rank :: Ranks(inside, rank)
  }

  ghost predicate Acyclic(inside: Inside) {
    forall p :: !Cycle(inside, p)
  }

  lemma {:induction false} WalkDescends(inside: Inside, rank: map<Id, nat>, p: seq<Id>)
    requires Ranks(inside, rank) && Walk(inside, p) && |p| >= 2
    ensures rank[p[|p| - 1]] < rank[p[0]]
  {
    assert Hop(inside, p, 1) && Below(inside, rank, p[0]);
    if |p| > 2 {
      var rest := p[1..];
      forall i {:trigger Hop(inside, rest, i)} | 0 < i < |rest| ensures Hop(inside, rest, i) {
        assert Hop(inside, p, i + 1);
      }
      WalkDescends(inside, rank, rest);
    }
  }

  lemma RankedIsAcyclic(inside: Inside)
    requires Ranked(inside)
    ensures Acyclic(inside)
  {
    var rank :| Ranks(inside, rank);
    forall p ensures !Cycle(inside, p) {
      if Cycle(inside, p) { WalkDescends(inside, rank, p); }
    }
  }

  lemma CycleHasNoRanks(inside: Inside, cycle: seq<Id>)
    requires Cycle(inside, cycle)
    ensures !Ranked(inside) && !Acyclic(inside)
  {
    if Ranked(inside) { RankedIsAcyclic(inside); }
  }

  /** The path is a walk of distinct Cells that are still being explored. */
  ghost predicate Exploring(inside: Inside, settled: set<Id>, path: seq<Id>) {
    Walk(inside, path) && Distinct(path) && SetOf(path) !! settled
  }

  /** Settled Cells contain settled Cells only, and those were settled before. */
  ghost predicate Settled(inside: Inside, settled: set<Id>, height: map<Id, nat>) {
    && settled <= inside.Keys && height.Keys == settled
    && (forall x {:trigger Capped(height, |settled|, x)} :: Capped(height, |settled|, x))
    && forall x {:trigger Below(inside, height, x)} :: Below(inside, height, x)
  }

  lemma PushKeeps(inside: Inside, settled: set<Id>, path: seq<Id>, id: Id)
    requires Exploring(inside, settled, path) && id in inside && id !in settled && id !in path
    requires path != [] ==> id in inside[path[|path| - 1]]
    ensures Exploring(inside, settled, path + [id])
  {
    var longer := path + [id];
    forall i {:trigger Hop(inside, longer, i)} ensures Hop(inside, longer, i) {
      assert Hop(inside, path, i);
    }
    SetOfAppend(path, id);
  }

  lemma PopKeeps(inside: Inside, settled: set<Id>, path: seq<Id>, id: Id)
    requires Exploring(inside, settled, path + [id])
    ensures Exploring(inside, settled + {id}, path) && id in inside && id !in settled
  {
    var longer := path + [id];
    assert longer[|path|] == id;
    SetOfAppend(path, id);
    forall i | 0 <= i < |path| ensures path[i] in inside && path[i] != id {
      assert longer[i] == path[i];
    }
    forall i {:trigger Hop(inside, path, i)} ensures Hop(inside, path, i) {
      assert Hop(inside, longer, i);
    }
    forall i, j | 0 <= i < j < |path| ensures path[i] != path[j] {
      assert longer[i] == path[i] && longer[j] == path[j];
    }
  }

  lemma SettleKeeps(inside: Inside, settled: set<Id>, height: map<Id, nat>, id: Id)
    requires Settled(inside, settled, height) && id in inside && id !in settled
    requires forall k | 0 <= k < |inside[id]| :: inside[id][k] in settled
    ensures Settled(inside, settled + {id}, height[id := |settled|])
  {
    var taller := height[id := |settled|];
    forall x {:trigger Below(inside, taller, x)} ensures Below(inside, taller, x) {
      assert Below(inside, height, x);
      forall k | x == id && 0 <= k < |inside[x]| ensures taller[inside[x][k]] < |settled| {
        assert Capped(height, |settled|, inside[x][k]);
      }
    }
    forall x {:trigger Capped(taller, |settled + {id}|, x)} ensures Capped(taller, |settled + {id}|, x) {
      assert Capped(height, |settled|, x);
    }
  }

  lemma AllSettled(inside: Inside, settled: set<Id>, height: map<Id, nat>)
    requires Settled(inside, settled, height) && inside.Keys <= settled
    ensures Ranks(inside, height) && Acyclic(inside)
  {
    assert settled == inside.Keys;
    forall x {:trigger Capped(height, |inside|, x)} ensures Capped(height, |inside|, x) {
      assert Capped(height, |settled|, x);
    }
    assert Ranks(inside, height);
    RankedIsAcyclic(inside);
  }

  lemma PathMeetsItself(inside: Inside, settled: set<Id>, path: seq<Id>, i: nat, id: Id)
    requires Exploring(inside, settled, path) && i < |path| && path[i] == id
    requires id in inside[path[|path| - 1]]
    ensures Cycle(inside, path[i..] + [id])
  {
    var c := path[i..] + [id];
    forall j: nat {:trigger Hop(inside, c, j)} ensures Hop(inside, c, j) {
      if 0 < j < |c| - 1 { var at: nat := i + j; assert Hop(inside, path, at); }
    }
  }

  lemma LessRoom(inside: Inside, path: seq<Id>, id: Id)
    requires id in inside && id !in path
    ensures |inside.Keys - SetOf(path + [id])| < |inside.Keys - SetOf(path)|
  {
    SetOfAppend(path, id);
    assert inside.Keys - SetOf(path + [id]) == inside.Keys - SetOf(path) - {id};
  }

  class ContainmentSearch {
    const inside: Inside
    var settled: set<Id>
    var onPath: seq<Id>
    ghost var height: map<Id, nat>

    constructor (inside: Inside)
      requires Closed(inside)
      ensures this.inside == inside && settled == {} && onPath == [] && Valid()
    {
      this.inside, settled, onPath, height := inside, {}, [], map[];
    }

    ghost predicate Valid()
      reads this
    {
      Closed(inside) && Settled(inside, settled, height) && Exploring(inside, settled, onPath)
    }

    /** The cycle an id already on the path closes. */
    method CloseCycle(id: Id) returns (cycle: seq<Id>)
      requires Valid() && id in onPath && id in inside[onPath[|onPath| - 1]]
      ensures Cycle(inside, cycle)
    {
      var i := 0;
      while onPath[i] != id
        invariant 0 <= i < |onPath| && id in onPath[i..]
        decreases |onPath| - i
      {
        i := i + 1;
      }
      PathMeetsItself(inside, settled, onPath, i, id);
      cycle := onPath[i..] + [id];
    }

    method Enter(id: Id)
      requires Valid() && id in inside && id !in settled && id !in onPath
      requires onPath != [] ==> id in inside[onPath[|onPath| - 1]]
      modifies `onPath
      ensures Valid() && onPath == old(onPath) + [id]
      ensures |inside.Keys - SetOf(onPath)| < |inside.Keys - SetOf(old(onPath))|
    {
      LessRoom(inside, onPath, id);
      PushKeeps(inside, settled, onPath, id);
      onPath := onPath + [id];
    }

    method Leave(id: Id, ghost path: seq<Id>)
      requires Valid() && onPath == path + [id]
      requires id in inside ==> SetOf(inside[id]) <= settled
      modifies this
      ensures Valid() && onPath == path && settled == old(settled) + {id}
    {
      PopKeeps(inside, settled, path, id);
      SettleKeeps(inside, settled, height, id);
      onPath := onPath[..|onPath| - 1];
      height := height[id := |settled|];
      settled := settled + {id};
    }

    /** Explore a Cell. Returns the cycle it closes, or nothing after settling it
        and everything inside it. */
    method Descend(id: Id) returns (cycle: seq<Id>)
      requires Valid() && id in inside
      requires onPath != [] ==> id in inside[onPath[|onPath| - 1]]
      modifies this
      ensures cycle == [] ==> Valid() && onPath == old(onPath) && old(settled) <= settled && id in settled
      ensures cycle != [] ==> Cycle(inside, cycle)
      decreases |inside.Keys - SetOf(onPath)|, 1
    {
      if id in settled { return []; }
      if id in onPath {
        cycle := CloseCycle(id);
        return;
      }
      Enter(id);
      cycle := DescendMembers(id);
      if cycle == [] { Leave(id, old(onPath)); }
    }

    method DescendMembers(id: Id) returns (cycle: seq<Id>)
      requires Valid() && id in inside && onPath != [] && onPath[|onPath| - 1] == id
      modifies this
      ensures cycle == [] ==>
                Valid() && onPath == old(onPath) && old(settled) <= settled && SetOf(inside[id]) <= settled
      ensures cycle != [] ==> Cycle(inside, cycle)
      decreases |inside.Keys - SetOf(onPath)|, 2
    {
      var members := inside[id];
      assert Knows(inside, id);
      cycle := [];
      for n := 0 to |members|
        invariant cycle == [] && Valid() && onPath == old(onPath) && old(settled) <= settled
        invariant SetOf(members[..n]) <= settled
      {
        SetOfAppend(members[..n], members[n]);
        cycle := Descend(members[n]);
        if cycle != [] { return; }
        assert members[..n + 1] == members[..n] + [members[n]];
      }
      assert members[..|members|] == members;
    }

    /** _verify_containment_terminates: explore every Cell in turn. */
    method Verify(order: seq<Id>) returns (cycle: seq<Id>)
      requires Valid() && settled == {} && onPath == [] && SetOf(order) == inside.Keys
      modifies this
      ensures cycle == [] ==> Ranks(inside, height)
      ensures cycle != [] ==> Cycle(inside, cycle)
      ensures cycle == [] <==> Acyclic(inside)
      ensures cycle == [] <==> Ranked(inside)
    {
      cycle := [];
      for n := 0 to |order|
        invariant Valid() && onPath == [] && cycle == []
        invariant SetOf(order[..n]) <= settled
      {
        assert order[n] in SetOf(order);
        SetOfAppend(order[..n], order[n]);
        cycle := Descend(order[n]);
        if cycle != [] {
          CycleHasNoRanks(inside, cycle);
          return;
        }
        assert order[..n + 1] == order[..n] + [order[n]];
      }
      assert order[..|order|] == order;
      AllSettled(inside, settled, height);
    }
  }
}
