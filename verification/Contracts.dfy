/** The contract graph: Cells with typed ports, composites that wire them, and
    what ContractGraph.validate accepts. */
module Contracts {
  import opened Basics
  import opened Containment

  datatype Side = Input | Output

  datatype Port = Port(id: Id, schema: string)

  datatype Guarantee = Guarantee(
    id: Id, exclusive: bool, contractRefs: seq<Id>, obligations: seq<Id>, supportedBy: seq<Id>)

  datatype CellContract = CellContract(
    id: Id, inputs: seq<Port>, outputs: seq<Port>, guarantees: seq<Guarantee>, dependencies: seq<Id>)
  {
    function Ports(side: Side): seq<Port> {
      if side.Input? then inputs else outputs
    }
  }

  datatype PortReference = PortReference(cellId: Id, portId: Id)

  datatype Connection = Connection(source: PortReference, target: PortReference)

  datatype Composite = Composite(
    id: Id, controlling: Option<Id>, members: seq<Id>, connections: seq<Connection>,
    externalInputs: seq<PortReference>, externalOutputs: seq<PortReference>, guarantees: seq<Guarantee>)
  {
    function Exposed(side: Side): seq<PortReference> {
      if side.Input? then externalInputs else externalOutputs
    }
  }

  datatype ContractGraph = ContractGraph(rootId: Id, cells: seq<CellContract>, composites: seq<Composite>)

  // ---------- lookups ----------

  function CellIds(cells: seq<CellContract>): seq<Id> {
    seq(|cells|, i requires 0 <= i < |cells| => cells[i].id)
  }

  function CompositeIds(composites: seq<Composite>): seq<Id> {
    seq(|composites|, i requires 0 <= i < |composites| => composites[i].id)
  }

  predicate Known(g: ContractGraph, id: Id) {
    id in CellIds(g.cells)
  }

  ghost predicate IsCell(g: ContractGraph, c: CellContract, id: Id) {
    c in g.cells && c.id == id
  }

  /** The Cell with this id; the first one, where ids are not unique. */
  function CellOf(g: ContractGraph, id: Id): (c: CellContract)
    requires Known(g, id)
    ensures IsCell(g, c, id)
  {
    CellAmong(g.cells, id)
  }

  function CellAmong(cells: seq<CellContract>, id: Id): (c: CellContract)
    requires id in CellIds(cells)
    ensures c in cells && c.id == id
  {
    assert exists i :: 0 <= i < |cells| && CellIds(cells)[i] == id;
    if cells[0].id == id then cells[0]
    else
      assert CellIds(cells[1..]) == CellIds(cells)[1..];
      CellAmong(cells[1..], id)
  }

  /** The composite that is the interior of the Cell. */
  function InteriorAmong(composites: seq<Composite>, id: Id): (p: Option<Composite>)
    ensures p.Some? ==> p.value in composites && p.value.controlling == Some(id)
    ensures p.None? ==> forall q | q in composites :: q.controlling != Some(id)
  {
    if composites == [] then None
    else if composites[0].controlling == Some(id) then Some(composites[0])
    else InteriorAmong(composites[1..], id)
  }

  function InteriorOf(g: ContractGraph, id: Id): Option<Composite> {
    InteriorAmong(g.composites, id)
  }

  function Select(members: seq<Id>, g: ContractGraph): (r: seq<Id>)
    ensures forall m :: m in r <==> m in members && Known(g, m)
  {
    if members == [] then []
    else (if Known(g, members[0]) then [members[0]] else []) + Select(members[1..], g)
  }

  /** The containment relation: each Cell and the known members of its interior. */
  function InsideOf(g: ContractGraph): Inside {
    map id | id in CellIds(g.cells) ::
      match InteriorOf(g, id)
      case None => []
      case Some(p) => Select(p.members, g)
  }

  /** Position k is the only port with the id. */
  ghost predicate IsPort(ports: seq<Port>, id: Id, k: nat) {
    && k < |ports| && ports[k].id == id
    && forall j | 0 <= j < |ports| && ports[j].id == id :: j == k
  }

  ghost predicate Names(g: ContractGraph, side: Side, r: PortReference) {
    Known(g, r.cellId) && exists k :: IsPort(CellOf(g, r.cellId).Ports(side), r.portId, k)
  }

  ghost function IndexOf(g: ContractGraph, side: Side, r: PortReference): (k: nat)
    requires Names(g, side, r)
    ensures IsPort(CellOf(g, r.cellId).Ports(side), r.portId, k)
  {
    var k :| IsPort(CellOf(g, r.cellId).Ports(side), r.portId, k);
    k
  }

  ghost function SchemaOf(g: ContractGraph, side: Side, r: PortReference): string
    requires Names(g, side, r)
  {
    CellOf(g, r.cellId).Ports(side)[IndexOf(g, side, r)].schema
  }

  // ---------- what is accepted ----------

  ghost predicate ControlsOnce(composites: seq<Composite>) {
    forall i, j | 0 <= i < j < |composites| && composites[i].controlling.Some? ::
      composites[i].controlling != composites[j].controlling
  }

  ghost predicate WellNamed(g: ContractGraph) {
    && Distinct(CellIds(g.cells)) && Distinct(CompositeIds(g.composites))
    && g.rootId in CompositeIds(g.composites)
    && ControlsOnce(g.composites)
    && (forall p | p in g.composites && p.controlling.Some? :: Known(g, p.controlling.value))
    && forall c, d | c in g.cells && d in c.dependencies :: Known(g, d)
  }

  ghost predicate AllNamed(g: ContractGraph, side: Side, refs: seq<PortReference>) {
    forall i | 0 <= i < |refs| :: Names(g, side, refs[i])
  }

  /** Position by position, the boundary has the declared schemas and no more. */
  ghost predicate SameBoundary(g: ContractGraph, side: Side, declared: seq<Port>, refs: seq<PortReference>)
    requires AllNamed(g, side, refs)
  {
    && |refs| == |declared|
    && forall i | 0 <= i < |refs| :: SchemaOf(g, side, refs[i]) == declared[i].schema
  }

  ghost predicate BoundaryKept(g: ContractGraph, p: Composite, side: Side) {
    p.controlling.Some? && Known(g, p.controlling.value) ==>
      && AllNamed(g, side, p.Exposed(side))
      && SameBoundary(g, side, CellOf(g, p.controlling.value).Ports(side), p.Exposed(side))
  }

  /** Every exclusive claim of a project contract, Cell by Cell. */
  function GuaranteeClaims(guarantees: seq<Guarantee>): seq<Id> {
    if guarantees == [] then []
    else
      var last := guarantees[|guarantees| - 1];
      GuaranteeClaims(guarantees[..|guarantees| - 1]) + if last.exclusive then last.contractRefs else []
  }

  function Claims(cells: seq<CellContract>): seq<Id> {
    if cells == [] then []
    else Claims(cells[..|cells| - 1]) + GuaranteeClaims(cells[|cells| - 1].guarantees)
  }

  ghost predicate Joins(g: ContractGraph, p: Composite, w: Connection) {
    && w.source.cellId in p.members && w.target.cellId in p.members
    && Names(g, Output, w.source) && Names(g, Input, w.target)
    && SchemaOf(g, Output, w.source) == SchemaOf(g, Input, w.target)
  }

  ghost predicate Exposes(g: ContractGraph, p: Composite, side: Side, r: PortReference) {
    r.cellId in p.members && Names(g, side, r)
  }

  predicate Offers(c: CellContract, guaranteeId: Id) {
    exists u | u in c.guarantees :: u.id == guaranteeId
  }

  predicate SupportsAny(c: CellContract, ids: seq<Id>) {
    exists s | s in ids :: Offers(c, s)
  }

  predicate Supported(g: ContractGraph, p: Composite, u: Guarantee) {
    && (forall s | s in u.supportedBy :: exists c | c in g.cells :: Offers(c, s))
    && (forall c | c in g.cells && SupportsAny(c, u.supportedBy) :: c.id in p.members)
    && (u.supportedBy != [] || u.obligations != [])
  }

  ghost predicate Wired(g: ContractGraph, p: Composite) {
    && (forall m | m in p.members :: Known(g, m))
    && (forall i | 0 <= i < |p.connections| :: Joins(g, p, p.connections[i]))
    && (forall side, i | 0 <= i < |p.Exposed(side)| :: Exposes(g, p, side, p.Exposed(side)[i]))
    && forall i | 0 <= i < |p.guarantees| :: Supported(g, p, p.guarantees[i])
  }

  ghost predicate Accepted(g: ContractGraph) {
    && WellNamed(g)
    && Ranked(InsideOf(g))
    && (forall p, side | p in g.composites :: BoundaryKept(g, p, side))
    && Distinct(Claims(g.cells))
    && forall p | p in g.composites :: Wired(g, p)
  }

  // ---------- the validator ----------

  /** CellContract.input and CellContract.output: exactly one port has the id. */
  method FindPort(ports: seq<Port>, id: Id) returns (at: Option<nat>)
    ensures at.Some? ==> IsPort(ports, id, at.value)
    ensures at.None? ==> forall k :: !IsPort(ports, id, k)
  {
    at := None;
    for i := 0 to |ports|
      invariant at.Some? ==> at.value < i && IsPort(ports[..i], id, at.value)
      invariant at.None? ==> forall k | 0 <= k < i :: ports[k].id != id
    {
      if ports[i].id == id {
        if at.Some? {
          assert ports[at.value].id == id && ports[i].id == id;
          return None;
        }
        at := Some(i);
      }
    }
    assert ports[..|ports|] == ports;
  }

  method FindSchema(g: ContractGraph, side: Side, r: PortReference) returns (schema: Option<string>)
    requires Known(g, r.cellId)
    ensures schema.Some? <==> Names(g, side, r)
    ensures schema.Some? ==> schema.value == SchemaOf(g, side, r)
  {
    var ports := CellOf(g, r.cellId).Ports(side);
    var at := FindPort(ports, r.portId);
    schema := if at.Some? then Some(ports[at.value].schema) else None;
  }

  method CheckNames(g: ContractGraph) returns (ok: bool)
    ensures ok <==> WellNamed(g)
  {
    var cellIds, compositeIds := CellIds(g.cells), CompositeIds(g.composites);
    ok := AllDistinct(cellIds) && AllDistinct(compositeIds) && g.rootId in compositeIds;
    if !ok { return; }
    ok := forall i, j | 0 <= i < |g.composites| && i < j < |g.composites| && g.composites[i].controlling.Some? ::
      g.composites[i].controlling != g.composites[j].controlling;
    if !ok { return; }
    ok := forall p | p in g.composites :: p.controlling.Some? ==> p.controlling.value in cellIds;
    if !ok { return; }
    for i := 0 to |g.cells|
      invariant forall k, d | 0 <= k < i && d in g.cells[k].dependencies :: d in cellIds
    {
      ok := forall d | d in g.cells[i].dependencies :: d in cellIds;
      if !ok {
        var d :| d in g.cells[i].dependencies && d !in cellIds;
        assert g.cells[i] in g.cells && !Known(g, d);
        return false;
      }
    }
  }

  predicate AllDistinct(s: seq<Id>)
    ensures AllDistinct(s) <==> Distinct(s)
  {
    forall i, j | 0 <= i < |s| && i < j < |s| :: s[i] != s[j]
  }

  lemma InsideIsClosed(g: ContractGraph)
    ensures Closed(InsideOf(g))
  {
    var inside := InsideOf(g);
    forall x {:trigger Knows(inside, x)} ensures Knows(inside, x) {
      if x in inside {
        forall k | 0 <= k < |inside[x]| ensures inside[x][k] in inside {
          assert inside[x][k] in inside[x];
        }
      }
    }
  }

  method CheckContainment(g: ContractGraph) returns (cycle: seq<Id>)
    ensures cycle == [] <==> Ranked(InsideOf(g))
    ensures cycle != [] ==> Cycle(InsideOf(g), cycle)
  {
    InsideIsClosed(g);
    var search := new ContainmentSearch(InsideOf(g));
    assert SetOf(CellIds(g.cells)) == InsideOf(g).Keys;
    cycle := search.Verify(CellIds(g.cells));
  }

  /** One side of an interior's boundary. An unknown Cell leaves the side to the
      membership check; an unknown or ambiguous port refuses at once. */
  method CheckSide(g: ContractGraph, side: Side, declared: seq<Port>, refs: seq<PortReference>) returns (ok: bool)
    ensures !ok ==> !AllNamed(g, side, refs) || !SameBoundary(g, side, declared, refs)
    ensures ok && AllNamed(g, side, refs) ==> SameBoundary(g, side, declared, refs)
  {
    var schemas: seq<string> := [];
    for i := 0 to |refs|
      invariant |schemas| == i
      invariant forall k | 0 <= k < i :: Names(g, side, refs[k]) && schemas[k] == SchemaOf(g, side, refs[k])
    {
      if !Known(g, refs[i].cellId) { return true; }
      var schema := FindSchema(g, side, refs[i]);
      if schema.None? { return false; }
      schemas := schemas + [schema.value];
    }
    if |schemas| != |declared| { return false; }
    ok := true;
    for i := 0 to |declared|
      invariant ok && forall k | 0 <= k < i :: schemas[k] == declared[k].schema
    {
      if schemas[i] != declared[i].schema { return false; }
    }
  }

  ghost predicate BoundaryPlausible(g: ContractGraph, p: Composite, side: Side) {
    AllNamed(g, side, p.Exposed(side)) ==> BoundaryKept(g, p, side)
  }

  method CheckBoundary(g: ContractGraph, p: Composite) returns (ok: bool)
    ensures !ok ==> exists side :: !BoundaryKept(g, p, side)
    ensures ok ==> BoundaryPlausible(g, p, Input) && BoundaryPlausible(g, p, Output)
  {
    if p.controlling.None? || !Known(g, p.controlling.value) { return true; }
    var cell := CellOf(g, p.controlling.value);
    ok := CheckSide(g, Input, cell.Ports(Input), p.Exposed(Input));
    if !ok {
      assert !BoundaryKept(g, p, Input);
      return;
    }
    ok := CheckSide(g, Output, cell.Ports(Output), p.Exposed(Output));
    if !ok { assert !BoundaryKept(g, p, Output); }
  }

  method CheckBoundaries(g: ContractGraph) returns (ok: bool)
    ensures !ok ==> exists p, side :: p in g.composites && !BoundaryKept(g, p, side)
    ensures ok ==> forall p, side | p in g.composites :: BoundaryPlausible(g, p, side)
  {
    for i := 0 to |g.composites|
      invariant forall k, side | 0 <= k < i :: BoundaryPlausible(g, g.composites[k], side)
    {
      ok := CheckBoundary(g, g.composites[i]);
      if !ok { return; }
      forall side ensures BoundaryPlausible(g, g.composites[i], side) {
        assert side == Input || side == Output;
      }
    }
    ok := true;
  }

  /** Claims of one guarantee after the claims already made. */
  method ClaimAll(taken: set<Id>, refs: seq<Id>, ghost before: seq<Id>) returns (ok: bool, now: set<Id>)
    requires Distinct(before) && taken == SetOf(before)
    ensures ok <==> Distinct(before + refs)
    ensures ok ==> now == SetOf(before + refs)
  {
    now := taken;
    assert before + refs[..0] == before;
    for i := 0 to |refs|
      invariant Distinct(before + refs[..i]) && now == SetOf(before + refs[..i])
    {
      ghost var sofar := before + refs[..i];
      assert before + refs[..i + 1] == sofar + [refs[i]];
      if refs[i] in now {
        DuplicateStays(sofar, refs[i], before + refs);
        return false, now;
      }
      SetOfAppend(sofar, refs[i]);
      now := now + {refs[i]};
    }
    assert refs[..|refs|] == refs;
    ok := true;
  }

  lemma DuplicateStays(s: seq<Id>, x: Id, longer: seq<Id>)
    requires x in s && |s| < |longer| && s == longer[..|s|] && longer[|s|] == x
    ensures !Distinct(longer)
  {
    var i :| 0 <= i < |s| && s[i] == x;
    assert longer[i] == longer[|s|];
  }

  lemma PrefixDistinct(s: seq<Id>, t: seq<Id>)
    requires Distinct(s + t)
    ensures Distinct(s)
  {
    forall i, j | 0 <= i < j < |s| ensures s[i] != s[j] {
      assert (s + t)[i] == s[i] && (s + t)[j] == s[j];
    }
  }

  method ClaimCell(taken: set<Id>, guarantees: seq<Guarantee>, ghost before: seq<Id>)
    returns (ok: bool, now: set<Id>)
    requires Distinct(before) && taken == SetOf(before)
    ensures ok <==> Distinct(before + GuaranteeClaims(guarantees))
    ensures ok ==> now == SetOf(before + GuaranteeClaims(guarantees))
  {
    now, ok := taken, true;
    assert before + GuaranteeClaims(guarantees[..0]) == before;
    for i := 0 to |guarantees|
      invariant ok && Distinct(before + GuaranteeClaims(guarantees[..i]))
      invariant now == SetOf(before + GuaranteeClaims(guarantees[..i]))
    {
      assert guarantees[..i + 1][..i] == guarantees[..i];
      ghost var sofar := before + GuaranteeClaims(guarantees[..i]);
      if guarantees[i].exclusive {
        assert before + GuaranteeClaims(guarantees[..i + 1]) == sofar + guarantees[i].contractRefs;
        ok, now := ClaimAll(now, guarantees[i].contractRefs, sofar);
        if !ok {
          RestStaysTaken(before, guarantees, i + 1);
          return;
        }
      } else {
        assert before + GuaranteeClaims(guarantees[..i + 1]) == sofar;
      }
    }
    assert guarantees[..|guarantees|] == guarantees;
  }

  lemma {:induction false} RestStaysTaken(before: seq<Id>, guarantees: seq<Guarantee>, n: nat)
    requires n <= |guarantees| && !Distinct(before + GuaranteeClaims(guarantees[..n]))
    ensures !Distinct(before + GuaranteeClaims(guarantees))
    decreases |guarantees|
  {
    if n == |guarantees| {
      assert guarantees[..n] == guarantees;
    } else {
      var shorter := guarantees[..|guarantees| - 1];
      assert shorter[..n] == guarantees[..n];
      RestStaysTaken(before, shorter, n);
      var last := guarantees[|guarantees| - 1];
      var more := if last.exclusive then last.contractRefs else [];
      assert before + GuaranteeClaims(guarantees) == (before + GuaranteeClaims(shorter)) + more;
      if Distinct(before + GuaranteeClaims(guarantees)) {
        PrefixDistinct(before + GuaranteeClaims(shorter), more);
      }
    }
  }

  lemma {:induction false} MoreCellsStayTaken(cells: seq<CellContract>, n: nat)
    requires n <= |cells| && !Distinct(Claims(cells[..n]))
    ensures !Distinct(Claims(cells))
    decreases |cells|
  {
    if n == |cells| {
      assert cells[..n] == cells;
    } else {
      var shorter := cells[..|cells| - 1];
      assert shorter[..n] == cells[..n];
      MoreCellsStayTaken(shorter, n);
      if Distinct(Claims(cells)) {
        PrefixDistinct(Claims(shorter), GuaranteeClaims(cells[|cells| - 1].guarantees));
      }
    }
  }

  lemma TwiceInConcat(s: seq<Id>, t: seq<Id>, r: Id)
    requires r in s && r in t
    ensures !Distinct(s + t)
  {
    var i :| 0 <= i < |s| && s[i] == r;
    var j :| 0 <= j < |t| && t[j] == r;
    assert (s + t)[i] == (s + t)[|s| + j];
  }

  predicate ClaimsIn(guarantees: seq<Guarantee>, a: nat, r: Id) {
    a < |guarantees| && guarantees[a].exclusive && r in guarantees[a].contractRefs
  }

  lemma {:induction false} GuaranteeClaimed(guarantees: seq<Guarantee>, a: nat, r: Id)
    requires ClaimsIn(guarantees, a, r)
    ensures r in GuaranteeClaims(guarantees)
  {
    if a < |guarantees| - 1 { GuaranteeClaimed(guarantees[..|guarantees| - 1], a, r); }
  }

  lemma {:induction false} CellClaimed(cells: seq<CellContract>, i: nat, r: Id)
    requires i < |cells| && r in GuaranteeClaims(cells[i].guarantees)
    ensures r in Claims(cells)
  {
    if i < |cells| - 1 { CellClaimed(cells[..|cells| - 1], i, r); }
  }

  lemma TwoCellsClash(cells: seq<CellContract>, i: nat, j: nat, r: Id)
    requires i < j < |cells|
    requires r in GuaranteeClaims(cells[i].guarantees) && r in GuaranteeClaims(cells[j].guarantees)
    ensures !Distinct(Claims(cells))
  {
    CellClaimed(cells[..j], i, r);
    assert cells[..j + 1][..j] == cells[..j];
    TwiceInConcat(Claims(cells[..j]), GuaranteeClaims(cells[j].guarantees), r);
    MoreCellsStayTaken(cells, j + 1);
  }

  lemma GuaranteesClash(before: seq<Id>, guarantees: seq<Guarantee>, a: nat, b: nat, r: Id)
    requires a < b && ClaimsIn(guarantees, a, r) && ClaimsIn(guarantees, b, r)
    ensures !Distinct(before + GuaranteeClaims(guarantees))
  {
    var fewer := guarantees[..b];
    GuaranteeClaimed(fewer, a, r);
    assert guarantees[..b + 1][..b] == fewer;
    assert before + GuaranteeClaims(guarantees[..b + 1]) ==
        (before + GuaranteeClaims(fewer)) + guarantees[b].contractRefs;
    TwiceInConcat(before + GuaranteeClaims(fewer), guarantees[b].contractRefs, r);
    RestStaysTaken(before, guarantees, b + 1);
  }

  lemma TwoGuaranteesClash(cells: seq<CellContract>, i: nat, a: nat, b: nat, r: Id)
    requires i < |cells| && a < b && ClaimsIn(cells[i].guarantees, a, r) && ClaimsIn(cells[i].guarantees, b, r)
    ensures !Distinct(Claims(cells))
  {
    GuaranteesClash(Claims(cells[..i]), cells[i].guarantees, a, b, r);
    assert cells[..i + 1][..i] == cells[..i];
    MoreCellsStayTaken(cells, i + 1);
  }

  /** In an accepted graph a project contract is the exclusive responsibility of at
      most one guarantee of one Cell. */
  lemma ExclusiveMeansOne(g: ContractGraph, i: nat, a: nat, j: nat, b: nat, r: Id)
    requires Accepted(g) && i < |g.cells| && j < |g.cells|
    requires ClaimsIn(g.cells[i].guarantees, a, r) && ClaimsIn(g.cells[j].guarantees, b, r)
    ensures i == j && a == b
  {
    GuaranteeClaimed(g.cells[i].guarantees, a, r);
    GuaranteeClaimed(g.cells[j].guarantees, b, r);
    if i < j {
      TwoCellsClash(g.cells, i, j, r);
    } else if j < i {
      TwoCellsClash(g.cells, j, i, r);
    } else if a < b {
      TwoGuaranteesClash(g.cells, i, a, b, r);
    } else if b < a {
      TwoGuaranteesClash(g.cells, i, b, a, r);
    }
  }

  /** No project contract is claimed exclusively twice, not even by one Cell. */
  method CheckExclusive(g: ContractGraph) returns (ok: bool)
    ensures ok <==> Distinct(Claims(g.cells))
  {
    var taken: set<Id> := {};
    ok := true;
    for i := 0 to |g.cells|
      invariant ok && Distinct(Claims(g.cells[..i])) && taken == SetOf(Claims(g.cells[..i]))
    {
      assert g.cells[..i + 1][..i] == g.cells[..i];
      ok, taken := ClaimCell(taken, g.cells[i].guarantees, Claims(g.cells[..i]));
      if !ok {
        MoreCellsStayTaken(g.cells, i + 1);
        return;
      }
    }
    assert g.cells[..|g.cells|] == g.cells;
  }

  method CheckConnection(g: ContractGraph, p: Composite, w: Connection) returns (ok: bool)
    requires forall m | m in p.members :: Known(g, m)
    ensures ok <==> Joins(g, p, w)
  {
    if w.source.cellId !in p.members || w.target.cellId !in p.members { return false; }
    var source := FindSchema(g, Output, w.source);
    if source.None? { return false; }
    var target := FindSchema(g, Input, w.target);
    if target.None? { return false; }
    ok := source.value == target.value;
  }

  method CheckExposed(g: ContractGraph, p: Composite, side: Side) returns (ok: bool)
    requires forall m | m in p.members :: Known(g, m)
    ensures ok <==> forall i | 0 <= i < |p.Exposed(side)| :: Exposes(g, p, side, p.Exposed(side)[i])
  {
    var refs := p.Exposed(side);
    for i := 0 to |refs|
      invariant forall k | 0 <= k < i :: Exposes(g, p, side, refs[k])
    {
      ok := refs[i].cellId in p.members;
      if ok {
        var schema := FindSchema(g, side, refs[i]);
        ok := schema.Some?;
      }
      if !ok {
        assert !Exposes(g, p, side, refs[i]);
        return;
      }
    }
    ok := true;
  }

  method CheckComposite(g: ContractGraph, p: Composite) returns (ok: bool)
    ensures ok <==> Wired(g, p)
  {
    ok := forall m | m in p.members :: Known(g, m);
    if !ok { return; }
    for i := 0 to |p.connections|
      invariant forall k | 0 <= k < i :: Joins(g, p, p.connections[k])
    {
      ok := CheckConnection(g, p, p.connections[i]);
      if !ok { return; }
    }
    ok := CheckExposed(g, p, Input);
    if !ok { return; }
    ok := CheckExposed(g, p, Output);
    if !ok { return; }
    for i := 0 to |p.guarantees|
      invariant forall k | 0 <= k < i :: Supported(g, p, p.guarantees[k])
    {
      ok := Supported(g, p, p.guarantees[i]);
      if !ok { return; }
    }
  }

  /** ContractGraph.validate. */
  method Validate(g: ContractGraph) returns (ok: bool)
    ensures ok <==> Accepted(g)
  {
    ok := CheckNames(g);
    if !ok { return; }
    var cycle := CheckContainment(g);
    if cycle != [] { return false; }
    ok := CheckBoundaries(g);
    if !ok { return; }
    ok := CheckExclusive(g);
    if !ok { return; }
    for i := 0 to |g.composites|
      invariant forall k | 0 <= k < i :: Wired(g, g.composites[k])
    {
      ok := CheckComposite(g, g.composites[i]);
      if !ok { return; }
    }
    forall p, side | p in g.composites ensures BoundaryKept(g, p, side) {
      assert Wired(g, p) && BoundaryPlausible(g, p, side);
      forall i | 0 <= i < |p.Exposed(side)| ensures Names(g, side, p.Exposed(side)[i]) {
        assert Exposes(g, p, side, p.Exposed(side)[i]);
      }
    }
    ok := true;
  }
}
