/** What an accepted contract graph promises a reader who follows its ports
    inward, from a Cell to the interior that implements it. */
module Ports {
  import opened Basics
  import opened Containment
  import opened Contracts

  /** A port by the Cell declaring it and its position on that side. */
  datatype Place = Place(cell: Id, index: nat)

  ghost predicate OnPort(g: ContractGraph, side: Side, at: Place) {
    Known(g, at.cell) && at.index < |CellOf(g, at.cell).Ports(side)|
  }

  ghost function SchemaAt(g: ContractGraph, side: Side, at: Place): string
    requires OnPort(g, side, at)
  {
    CellOf(g, at.cell).Ports(side)[at.index].schema
  }

  /** The place a reference names. */
  ghost function PlaceOf(g: ContractGraph, side: Side, r: PortReference): Place
    requires Names(g, side, r)
  {
    Place(r.cellId, IndexOf(g, side, r))
  }

  /** The port inside that implements a port, position by position. */
  ghost function Inward(g: ContractGraph, side: Side, at: Place): (next: Place)
    requires Accepted(g) && OnPort(g, side, at) && InteriorOf(g, at.cell).Some?
    ensures OnPort(g, side, next)
    ensures next.cell in InsideOf(g)[at.cell]
    ensures SchemaAt(g, side, next) == SchemaAt(g, side, at)
  {
    var p := InteriorOf(g, at.cell).value;
    assert BoundaryKept(g, p, side) && Wired(g, p);
    var refs := p.Exposed(side);
    assert Exposes(g, p, side, refs[at.index]);
    PlaceOf(g, side, refs[at.index])
  }

  ghost function RankOf(g: ContractGraph): (rank: map<Id, nat>)
    requires Accepted(g)
    ensures Ranks(InsideOf(g), rank)
  {
    var rank :| Ranks(InsideOf(g), rank);
    rank
  }

  // ---------- chasing a step that always sinks ----------

  type Step = Place -> Option<Place>

  ghost predicate Sinks(step: Step, depth: Place -> nat) {
    forall p {:trigger step(p)} :: step(p).Some? ==> depth(step(p).value) < depth(p)
  }

  /** Every place met, outermost first. */
  ghost function Chase(step: Step, depth: Place -> nat, at: Place): (t: seq<Place>)
    requires Sinks(step, depth)
    ensures 1 <= |t| <= depth(at) + 1 && t[0] == at && step(t[|t| - 1]).None?
    decreases depth(at)
  {
    if step(at).None? then [at] else [at] + Chase(step, depth, step(at).value)
  }

  lemma {:induction false} ChaseFollows(step: Step, depth: Place -> nat, at: Place, i: nat)
    requires Sinks(step, depth) && 0 < i < |Chase(step, depth, at)|
    ensures step(Chase(step, depth, at)[i - 1]) == Some(Chase(step, depth, at)[i])
    decreases i
  {
    if i > 1 { ChaseFollows(step, depth, step(at).value, i - 1); }
  }

  lemma {:induction false} ChaseSinks(step: Step, depth: Place -> nat, at: Place, i: nat, j: nat)
    requires Sinks(step, depth) && i < j < |Chase(step, depth, at)|
    ensures depth(Chase(step, depth, at)[j]) < depth(Chase(step, depth, at)[i])
    decreases j
  {
    ChaseFollows(step, depth, at, j);
    if i < j - 1 { ChaseSinks(step, depth, at, i, j - 1); }
  }

  // ---------- following ports inward ----------

  ghost function InwardStep(g: ContractGraph, side: Side): Step
    requires Accepted(g)
  {
    (at: Place) => if OnPort(g, side, at) && InteriorOf(g, at.cell).Some? then Some(Inward(g, side, at)) else None
  }

  ghost function DepthIn(g: ContractGraph): Place -> nat
    requires Accepted(g)
  {
    (at: Place) => if at.cell in RankOf(g) then RankOf(g)[at.cell] else 0
  }

  lemma InwardSinks(g: ContractGraph, side: Side)
    requires Accepted(g)
    ensures Sinks(InwardStep(g, side), DepthIn(g))
  {
    forall at | InwardStep(g, side)(at).Some?
      ensures DepthIn(g)(InwardStep(g, side)(at).value) < DepthIn(g)(at)
    {
      var next := Inward(g, side, at);
      assert Below(InsideOf(g), RankOf(g), at.cell);
      var members := InsideOf(g)[at.cell];
      var k :| 0 <= k < |members| && members[k] == next.cell;
    }
  }

  ghost function Trail(g: ContractGraph, side: Side, at: Place): (t: seq<Place>)
    requires Accepted(g) && OnPort(g, side, at)
    ensures |t| >= 1 && t[0] == at
  {
    InwardSinks(g, side);
    Chase(InwardStep(g, side), DepthIn(g), at)
  }

  /** Place i of the trail: a port with the first one's schema, directly inside
      the place before it. */
  ghost predicate TrailAt(g: ContractGraph, side: Side, t: seq<Place>, i: nat)
    requires i < |t|
  {
    && OnPort(g, side, t[0]) && OnPort(g, side, t[i])
    && SchemaAt(g, side, t[i]) == SchemaAt(g, side, t[0])
    && (i > 0 ==> t[i - 1].cell in InsideOf(g) && t[i].cell in InsideOf(g)[t[i - 1].cell])
  }

  /** One step inward: a port of the same schema, directly inside. */
  ghost predicate Implements(g: ContractGraph, side: Side, outer: Place, inner: Place) {
    OnPort(g, side, outer) ==>
      && OnPort(g, side, inner) && SchemaAt(g, side, inner) == SchemaAt(g, side, outer)
      && outer.cell in InsideOf(g) && inner.cell in InsideOf(g)[outer.cell]
  }

  lemma StepImplements(g: ContractGraph, side: Side, at: Place, next: Place)
    requires Accepted(g) && InwardStep(g, side)(at) == Some(next)
    ensures Implements(g, side, at, next)
  {}

  lemma {:induction false} SchemaKept(g: ContractGraph, side: Side, t: seq<Place>, i: nat)
    requires i < |t| && OnPort(g, side, t[0])
    requires forall k | 0 < k < |t| :: Implements(g, side, t[k - 1], t[k])
    ensures TrailAt(g, side, t, i)
    decreases i
  {
    if i > 0 {
      SchemaKept(g, side, t, i - 1);
      assert Implements(g, side, t[i - 1], t[i]);
    }
  }

  lemma TrailEnds(g: ContractGraph, side: Side, at: Place)
    requires Accepted(g) && OnPort(g, side, at)
    ensures |Trail(g, side, at)| <= DepthIn(g)(at) + 1
    ensures InwardStep(g, side)(Trail(g, side, at)[|Trail(g, side, at)| - 1]).None?
  {
    InwardSinks(g, side);
  }

  lemma CellsBoundRanks(g: ContractGraph, id: Id)
    requires Accepted(g) && Known(g, id)
    ensures RankOf(g)[id] < |g.cells|
  {
    assert Capped(RankOf(g), |InsideOf(g)|, id);
    assert InsideOf(g).Keys == SetOf(CellIds(g.cells));
    DistinctSize(CellIds(g.cells));
  }

  lemma TrailImplements(g: ContractGraph, side: Side, at: Place, k: nat)
    requires Accepted(g) && OnPort(g, side, at) && 0 < k < |Trail(g, side, at)|
    ensures Implements(g, side, Trail(g, side, at)[k - 1], Trail(g, side, at)[k])
  {
    InwardSinks(g, side);
    ChaseFollows(InwardStep(g, side), DepthIn(g), at, k);
    StepImplements(g, side, Trail(g, side, at)[k - 1], Trail(g, side, at)[k]);
  }

  /** Every place on the way in is a port of one schema, each directly inside the
      place before it. */
  lemma TrailKeepsSchema(g: ContractGraph, side: Side, at: Place, i: nat)
    requires Accepted(g) && OnPort(g, side, at) && i < |Trail(g, side, at)|
    ensures TrailAt(g, side, Trail(g, side, at), i)
  {
    var t := Trail(g, side, at);
    forall k | 0 < k < |t| ensures Implements(g, side, t[k - 1], t[k]) {
      TrailImplements(g, side, at, k);
    }
    SchemaKept(g, side, t, i);
  }

  /** The way in never meets a Cell twice. */
  lemma TrailIsSimple(g: ContractGraph, side: Side, at: Place, i: nat, j: nat)
    requires Accepted(g) && OnPort(g, side, at) && i < j < |Trail(g, side, at)|
    ensures Trail(g, side, at)[i].cell != Trail(g, side, at)[j].cell
  {
    InwardSinks(g, side);
    ChaseSinks(InwardStep(g, side), DepthIn(g), at, i, j);
  }

  /** Following a port inward ends within as many places as there are Cells, at a
      Cell without an interior, on a port of the schema it started from. */
  lemma PortsResolve(g: ContractGraph, side: Side, at: Place)
    requires Accepted(g) && OnPort(g, side, at)
    ensures |Trail(g, side, at)| <= |g.cells|
    ensures var last := Trail(g, side, at)[|Trail(g, side, at)| - 1];
            && OnPort(g, side, last) && InteriorOf(g, last.cell).None?
            && SchemaAt(g, side, last) == SchemaAt(g, side, at)
  {
    CellsBoundRanks(g, at.cell);
    TrailEnds(g, side, at);
    TrailKeepsSchema(g, side, at, |Trail(g, side, at)| - 1);
  }

  /** The port at the end of the trail. */
  ghost function Resolved(g: ContractGraph, side: Side, at: Place): (last: Place)
    requires Accepted(g) && OnPort(g, side, at)
    ensures OnPort(g, side, last) && InteriorOf(g, last.cell).None?
    ensures SchemaAt(g, side, last) == SchemaAt(g, side, at)
  {
    PortsResolve(g, side, at);
    Trail(g, side, at)[|Trail(g, side, at)| - 1]
  }

  /** Replacing both ends of a connection by the ports that implement them, all
      the way in, keeps the connection schema-compatible. */
  lemma ConnectionsSurviveResolution(g: ContractGraph, p: Composite, i: nat)
    requires Accepted(g) && p in g.composites && i < |p.connections|
    ensures var w := p.connections[i];
            && Names(g, Output, w.source) && Names(g, Input, w.target)
            && var source := Resolved(g, Output, PlaceOf(g, Output, w.source));
               var target := Resolved(g, Input, PlaceOf(g, Input, w.target));
               && InteriorOf(g, source.cell).None? && InteriorOf(g, target.cell).None?
               && SchemaAt(g, Output, source) == SchemaAt(g, Input, target)
  {
    assert Wired(g, p) && Joins(g, p, p.connections[i]);
  }
}
