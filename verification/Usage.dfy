/** Charges for dispatches: each dispatch once, and totals that are their sum.
    Amounts are exact; rounding is not modelled. */
module Usage {
  import opened Basics

  datatype Usage = Usage(
    money: real, tokens: int, latencySeconds: real, compute: real, retries: int, risk: real, attention: real)
  {
    predicate Valid() {
      && money >= 0.0 && tokens >= 0 && latencySeconds >= 0.0 && compute >= 0.0
      && retries >= 0 && risk >= 0.0 && attention >= 0.0
    }

    function Plus(other: Usage): Usage {
      Usage(money + other.money, tokens + other.tokens, latencySeconds + other.latencySeconds,
            compute + other.compute, retries + other.retries, risk + other.risk, attention + other.attention)
    }
  }

  const ZERO := Usage(0.0, 0, 0.0, 0.0, 0, 0.0, 0.0)

  /** A reported value: absent, a number, or anything else. */
  datatype Value = Absent | Whole(n: int) | Fraction(x: real) | Malformed

  datatype Report = Report(
    inputTokens: Value, outputTokens: Value, cost: Value, compute: Value, retries: Value,
    risk: Value, attention: Value, extra: string)

  datatype Request = Request(dispatchId: Id, report: Report, latencyMs: int)

  /** The digest of report and latency is the pair itself: digests are injective. */
  datatype Charge = Charge(report: Report, latencyMs: int, usage: Usage, unavailable: set<string>)

  predicate Same(c: Charge, r: Request) {
    c.report == r.report && c.latencyMs == r.latencyMs
  }

  // ---------- one report ----------

  predicate CountOk(v: Value) {
    v.Absent? || (v.Whole? && v.n >= 0)
  }

  predicate AmountOk(v: Value) {
    CountOk(v) || (v.Fraction? && v.x >= 0.0)
  }

  function Count(v: Value): int {
    if v.Whole? then v.n else 0
  }

  function Amount(v: Value): real {
    match v
    case Whole(n) => n as real
    case Fraction(x) => x
    case _ => 0.0
  }

  predicate Measurable(r: Request) {
    && r.dispatchId != "" && r.latencyMs >= 0
    && CountOk(r.report.inputTokens) && CountOk(r.report.outputTokens) && CountOk(r.report.retries)
    && AmountOk(r.report.cost) && AmountOk(r.report.compute) && AmountOk(r.report.risk)
    && AmountOk(r.report.attention)
  }

  function Named(v: Value, name: string): set<string> {
    if v.Absent? then {name} else {}
  }

  function ChargeOf(r: Request): (c: Charge)
    requires Measurable(r)
    ensures c.usage.Valid() && Same(c, r)
  {
    var p := r.report;
    Charge(p, r.latencyMs,
           Usage(Amount(p.cost), Count(p.inputTokens) + Count(p.outputTokens), r.latencyMs as real / 1000.0,
                 Amount(p.compute), Count(p.retries), Amount(p.risk), Amount(p.attention)),
           Named(p.inputTokens, "input_tokens") + Named(p.outputTokens, "output_tokens") + Named(p.cost, "cost")
           + Named(p.compute, "compute") + Named(p.retries, "retries") + Named(p.risk, "risk")
           + Named(p.attention, "human_attention"))
  }

  // ---------- sums over dispatches ----------

  type Charges = map<Id, Charge>

  ghost function Total(charges: Charges, ids: set<Id>): Usage
    requires ids <= charges.Keys
  {
    if ids == {} then ZERO
    else
      var id :| id in ids;
      Total(charges, ids - {id}).Plus(charges[id].usage)
  }

  lemma PlusMoves(a: Usage, b: Usage, c: Usage)
    ensures a.Plus(b).Plus(c) == a.Plus(c).Plus(b) == a.Plus(b.Plus(c))
  {}

  lemma {:induction false} TotalWithout(charges: Charges, ids: set<Id>, id: Id)
    requires ids <= charges.Keys && id in ids
    ensures Total(charges, ids) == Total(charges, ids - {id}).Plus(charges[id].usage)
    decreases |ids|
  {
    var first :| first in ids && Total(charges, ids) == Total(charges, ids - {first}).Plus(charges[first].usage);
    if first != id {
      TotalWithout(charges, ids - {first}, id);
      TotalWithout(charges, ids - {id}, first);
      assert ids - {first} - {id} == ids - {id} - {first};
      PlusMoves(Total(charges, ids - {first} - {id}), charges[id].usage, charges[first].usage);
    }
  }

  lemma {:induction false} TotalSplits(charges: Charges, a: set<Id>, b: set<Id>)
    requires a <= charges.Keys && b <= charges.Keys && a !! b
    ensures Total(charges, a + b) == Total(charges, a).Plus(Total(charges, b))
    decreases |b|
  {
    if b == {} {
      assert a + b == a;
    } else {
      var id :| id in b;
      var rest := b - {id};
      TotalSplits(charges, a, rest);
      TotalWithout(charges, b, id);
      TotalWithout(charges, a + b, id);
      assert a + b - {id} == a + rest;
      PlusMoves(Total(charges, a), Total(charges, rest), charges[id].usage);
    }
  }

  lemma {:induction false} TotalCongruent(c: Charges, d: Charges, ids: set<Id>)
    requires ids <= c.Keys && ids <= d.Keys && forall id | id in ids :: c[id].usage == d[id].usage
    ensures Total(c, ids) == Total(d, ids)
    decreases |ids|
  {
    if ids != {} {
      var id :| id in ids;
      TotalCongruent(c, d, ids - {id});
      TotalWithout(c, ids, id);
      TotalWithout(d, ids, id);
    }
  }

  /** Plus, with what is not a sum yet. */
  lemma TotalWithOneMore(charges: Charges, id: Id, c: Charge)
    requires id !in charges
    ensures Total(charges[id := c], charges.Keys + {id}) == Total(charges, charges.Keys).Plus(c.usage)
  {
    var more := charges[id := c];
    TotalWithout(more, charges.Keys + {id}, id);
    assert charges.Keys + {id} - {id} == charges.Keys;
    TotalCongruent(charges, more, charges.Keys);
  }

  // ---------- the ledgers ----------

  datatype UsageError = InvalidUsage | UsageReused

  class BudgetLedger {
    var totals: Usage

    constructor ()
      ensures totals == ZERO
    {
      totals := ZERO;
    }

    method Charge(usage: Usage) returns (ok: bool)
      modifies this
      ensures ok <==> usage.Valid() && old(totals).Valid()
      ensures totals == if ok then old(totals).Plus(usage) else old(totals)
    {
      if !usage.Valid() || !totals.Valid() { return false; }
      totals := totals.Plus(usage);
      ok := true;
    }
  }

  class UsageChargeLedger {
    const budget: BudgetLedger
    var charges: Charges

    constructor ()
      ensures fresh(budget) && Valid() && charges == map[]
    {
      budget := new BudgetLedger();
      charges := map[];
    }

    /** The totals are the sum over the dispatches charged, each counted once. */
    ghost predicate Valid()
      reads this, budget
    {
      && budget.totals.Valid()
      && budget.totals == Total(charges, charges.Keys)
      && forall id | id in charges :: charges[id].usage.Valid()
    }

    /** Charge a dispatch. A retry with the same values returns the charge already
        made; a retry with other values and a malformed report change nothing. */
    method ChargeDispatch(r: Request) returns (charge: Option<Charge>, error: Option<UsageError>)
      requires Valid()
      modifies this, budget
      ensures Valid()
      ensures charges == Charged(old(charges), r)
      ensures error.None? <==> Charging(old(charges), r).Some?
      ensures charge.Some? <==> error.None?
      ensures charge.Some? ==> r.dispatchId in charges && charges[r.dispatchId] == charge.value && Same(charge.value, r)
      ensures error == Some(UsageReused) ==> r.dispatchId in old(charges) && !Same(old(charges)[r.dispatchId], r)
      ensures error == Some(InvalidUsage) ==> !Measurable(r)
      ensures r.dispatchId in old(charges) || error.Some? ==> budget.totals == old(budget.totals)
    {
      if r.dispatchId == "" || r.latencyMs < 0 { return None, Some(InvalidUsage); }
      if r.dispatchId in charges {
        if !Same(charges[r.dispatchId], r) { return None, Some(UsageReused); }
        return Some(charges[r.dispatchId]), None;
      }
      if !Measurable(r) { return None, Some(InvalidUsage); }
      var made := ChargeOf(r);
      var _ := budget.Charge(made.usage);
      TotalWithOneMore(charges, r.dispatchId, made);
      assert charges[r.dispatchId := made].Keys == charges.Keys + {r.dispatchId};
      charges := charges[r.dispatchId := made];
      return Some(made), None;
    }

    /** What open does: charge every checkpointed job again. It goes through exactly
        if every report is well formed and no dispatch has two reports. */
    method Rebuild(jobs: seq<Request>) returns (ok: bool)
      requires Valid() && charges == map[]
      modifies this, budget
      ensures Valid()
      ensures ok ==> charges == ChargedAll(map[], jobs)
      ensures ok <==> Chargeable(jobs)
    {
      ok := true;
      assert jobs[..0] == [];
      for i := 0 to |jobs|
        invariant Valid() && ok && charges == ChargedAll(map[], jobs[..i])
        invariant Chargeable(jobs[..i])
      {
        ghost var fewer := jobs[..i];
        ghost var more := fewer + [jobs[i]];
        assert jobs[..i + 1] == more && more[..i] == fewer;
        Fits(fewer, jobs[i]);
        var _, error := ChargeDispatch(jobs[i]);
        if error.Some? {
          assert error.value == UsageReused || error.value == InvalidUsage;
          assert !Chargeable(more);
          MoreStayUnchargeable(jobs, i + 1);
          return false;
        }
      }
      assert jobs[..|jobs|] == jobs;
    }
  }

  /** The charge a request stands for has been made. */
  predicate Recorded(charges: Charges, r: Request) {
    Measurable(r) && r.dispatchId in charges && charges[r.dispatchId] == ChargeOf(r)
  }

  /** No dispatch is reported twice with different values that could be charged. */
  predicate Consistent(requests: seq<Request>) {
    forall a, b | a in requests && b in requests && a.dispatchId == b.dispatchId && Measurable(a) && Measurable(b) ::
      a == b
  }

  predicate Chargeable(requests: seq<Request>) {
    Consistent(requests) && forall r | r in requests :: Measurable(r)
  }

  /** The charges after a request, unless it is refused. */
  function Charging(charges: Charges, r: Request): (after: Option<Charges>)
    ensures after.Some? ==> after.value == Charged(charges, r)
  {
    if r.dispatchId == "" || r.latencyMs < 0 then None
    else if r.dispatchId in charges then if Same(charges[r.dispatchId], r) then Some(charges) else None
    else if Measurable(r) then Some(charges[r.dispatchId := ChargeOf(r)])
    else None
  }

  /** The charges after one more request. */
  function Charged(charges: Charges, r: Request): Charges {
    if r.dispatchId in charges || !Measurable(r) then charges else charges[r.dispatchId := ChargeOf(r)]
  }

  function ChargedAll(charges: Charges, requests: seq<Request>): Charges {
    if requests == [] then charges
    else Charged(ChargedAll(charges, requests[..|requests| - 1]), requests[|requests| - 1])
  }

  // ---------- order and conservation ----------

  /** Consistent requests leave exactly the charges they stand for. */
  lemma {:induction false} ChargesAre(requests: seq<Request>)
    requires Consistent(requests)
    ensures forall r | r in requests && Measurable(r) :: Recorded(ChargedAll(map[], requests), r)
    ensures forall id | id in ChargedAll(map[], requests) :: Stands(requests, id)
  {
    if requests != [] {
      var n := |requests| - 1;
      var fewer, last := requests[..n], requests[n];
      assert requests == fewer + [last];
      ChargesAre(fewer);
      var before := ChargedAll(map[], fewer);
      if last.dispatchId in before {
        assert Stands(fewer, last.dispatchId);
        if Measurable(last) { assert last in fewer; }
      }
      forall id | id in before ensures Stands(requests, id) {
        assert Stands(fewer, id);
        var q :| q in fewer && Measurable(q) && q.dispatchId == id;
        assert q in requests;
      }
      forall r | r in requests && Measurable(r) ensures Recorded(ChargedAll(map[], requests), r) {
        if r in fewer { assert Recorded(before, r); }
      }
    }
  }

  /** Some request that can be charged is for the dispatch. */
  predicate Stands(requests: seq<Request>, id: Id) {
    exists r | r in requests :: Measurable(r) && r.dispatchId == id
  }

  lemma Fits(fewer: seq<Request>, r: Request)
    requires Chargeable(fewer)
    ensures var c := ChargedAll(map[], fewer);
            (if r.dispatchId in c then Same(c[r.dispatchId], r) else Measurable(r)) <==> Chargeable(fewer + [r])
    ensures !Measurable(r) ==> !Chargeable(fewer + [r])
  {
    ChargesAre(fewer);
    var c := ChargedAll(map[], fewer);
    assert r in fewer + [r];
    if r.dispatchId in c {
      assert Stands(fewer, r.dispatchId);
      var q :| q in fewer && Measurable(q) && q.dispatchId == r.dispatchId;
      assert Recorded(c, q);
      assert q in fewer + [r];
    } else {
      forall q | q in fewer ensures q.dispatchId != r.dispatchId { assert Recorded(c, q); }
    }
  }

  lemma MoreStayUnchargeable(requests: seq<Request>, n: nat)
    requires n <= |requests| && !Chargeable(requests[..n])
    ensures !Chargeable(requests)
  {
    assert forall r | r in requests[..n] :: r in requests;
  }

  /** The order of consistent charges, and repeating them, changes nothing. */
  lemma OrderIsIrrelevant(a: seq<Request>, b: seq<Request>)
    requires Consistent(a) && SetOf(a) == SetOf(b)
    ensures ChargedAll(map[], a) == ChargedAll(map[], b)
  {
    forall r ensures r in a <==> r in b { assert r in SetOf(a) <==> r in SetOf(b); }
    ChargesAre(a);
    ChargesAre(b);
    var x, y := ChargedAll(map[], a), ChargedAll(map[], b);
    forall id | id in x ensures id in y && x[id] == y[id] {
      assert Stands(a, id);
      var r :| r in a && Measurable(r) && r.dispatchId == id;
      assert Recorded(x, r) && Recorded(y, r);
    }
    forall id | id in y ensures id in x {
      assert Stands(b, id);
      var r :| r in b && Measurable(r) && r.dispatchId == id;
      assert Recorded(x, r);
    }
  }

  /** The first chargeable report of a dispatch wins. */
  lemma {:induction false} FirstWins(r: Request, rest: seq<Request>)
    requires Measurable(r)
    ensures Recorded(ChargedAll(map[], [r] + rest), r)
  {
    var all := [r] + rest;
    if rest == [] {
      assert all[..0] == [];
    } else {
      FirstWins(r, rest[..|rest| - 1]);
      assert all[..|all| - 1] == [r] + rest[..|rest| - 1];
    }
  }

  /** Charges depend on nothing but the set of reports exactly if no dispatch has two
      chargeable ones. */
  lemma OrderIsIrrelevantIff(a: seq<Request>)
    ensures Consistent(a) <==> forall b | SetOf(b) == SetOf(a) :: ChargedAll(map[], b) == ChargedAll(map[], a)
  {
    if Consistent(a) {
      forall b | SetOf(b) == SetOf(a) ensures ChargedAll(map[], b) == ChargedAll(map[], a) {
        OrderIsIrrelevant(a, b);
      }
    } else {
      var x, y :| x in a && y in a && x.dispatchId == y.dispatchId && Measurable(x) && Measurable(y) && x != y;
      FirstWins(x, a);
      FirstWins(y, a);
      assert SetOf([x] + a) == SetOf(a) && SetOf([y] + a) == SetOf(a);
      assert ChargedAll(map[], [x] + a) != ChargedAll(map[], [y] + a);
    }
  }

  /** After a reopening the totals are those of the checkpointed jobs; what is gone
      is exactly what was charged for dispatches that never became jobs. */
  lemma RebuildConserves(live: Charges, jobs: seq<Request>)
    requires forall r | r in jobs :: Recorded(live, r)
    ensures var rebuilt := ChargedAll(map[], jobs);
            && rebuilt.Keys == (set r | r in jobs :: r.dispatchId) && rebuilt.Keys <= live.Keys
            && (forall id | id in rebuilt :: rebuilt[id] == live[id])
            && Total(live, live.Keys) == Total(rebuilt, rebuilt.Keys).Plus(Total(live, live.Keys - rebuilt.Keys))
  {
    forall a, b | a in jobs && b in jobs && a.dispatchId == b.dispatchId ensures a == b {
      assert Recorded(live, a) && Recorded(live, b);
    }
    ChargesAre(jobs);
    var rebuilt := ChargedAll(map[], jobs);
    forall id | id in rebuilt ensures id in live && rebuilt[id] == live[id] {
      assert Stands(jobs, id);
      var r :| r in jobs && Measurable(r) && r.dispatchId == id;
      assert Recorded(live, r) && Recorded(rebuilt, r);
    }
    assert rebuilt.Keys == (set r | r in jobs :: r.dispatchId) by {
      forall r | r in jobs ensures r.dispatchId in rebuilt { assert Recorded(rebuilt, r); }
    }
    TotalSplits(live, rebuilt.Keys, live.Keys - rebuilt.Keys);
    assert rebuilt.Keys + (live.Keys - rebuilt.Keys) == live.Keys;
    TotalCongruent(live, rebuilt, rebuilt.Keys);
  }
}
