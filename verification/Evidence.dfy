/** The acceptance engine: counting qualifying evidence per obligation. */
module Evidence {
  import opened Basics
  import opened Workflow
  import opened GraphInvariant

  datatype Scope = CellScope | CompositeScope | RootScope

  datatype EvidenceRecord = EvidenceRecord(
    evidenceId: Id, specification: string, cellId: Id, cellRevision: nat, scope: Scope, scopeId: Id,
    producer: Id, producerClass: string, subjects: seq<Id>, obligations: seq<Id>, findings: seq<Id>)

  datatype Obligation = Obligation(
    obligationId: Id, scope: Scope, scopeId: Id, eligible: seq<string>, minimum: nat, independent: bool)

  datatype AcceptanceRecord = AcceptanceRecord(
    acceptanceId: Id, specification: string, accepted: bool, satisfied: seq<Id>, unsatisfied: seq<Id>,
    qualifying: seq<Id>, unresolved: seq<Id>)

  datatype Question = Question(
    acceptanceId: Id, specification: string, revisions: map<Id, nat>,
    obligations: seq<Obligation>, evidence: seq<EvidenceRecord>, unresolved: seq<Id>)

  predicate IsDigest(s: string) {
    |s| == 71 && s[..7] == "sha256:"
    && forall i | 7 <= i < 71 :: '0' <= s[i] <= '9' || 'a' <= s[i] <= 'f'
  }

  function ObligationIds(rows: seq<Obligation>): seq<Id> {
    seq(|rows|, i requires 0 <= i < |rows| => rows[i].obligationId)
  }

  function EvidenceIds(rows: seq<EvidenceRecord>): seq<Id> {
    seq(|rows|, i requires 0 <= i < |rows| => rows[i].evidenceId)
  }

  /** What the engine demands before it counts anything. */
  predicate WellPosed(q: Question) {
    && q.acceptanceId != "" && IsDigest(q.specification)
    && (forall id | id in q.revisions :: id != "" && q.revisions[id] >= 1)
    && q.obligations != []
    && Distinct(ObligationIds(q.obligations))
    && Distinct(EvidenceIds(q.evidence))
    && "" !in q.unresolved
  }

  predicate Qualifies(e: EvidenceRecord, o: Obligation, specification: string, revisions: map<Id, nat>) {
    && e.specification == specification
    && e.scope == o.scope && e.scopeId == o.scopeId
    && o.obligationId in e.obligations
    && e.producerClass in o.eligible
    && e.cellId in revisions && revisions[e.cellId] == e.cellRevision
    && e.findings == []
    && (o.independent ==> e.producer !in e.subjects)
  }

  function Matches(q: Question, o: Obligation): set<Id> {
    set e | e in q.evidence && Qualifies(e, o, q.specification, q.revisions) :: e.evidenceId
  }

  predicate Met(q: Question, o: Obligation) {
    |Matches(q, o)| >= o.minimum
  }

  type Matcher = Obligation -> set<Id>

  function MatcherOf(q: Question): Matcher {
    o => Matches(q, o)
  }

  function MetIds(m: Matcher, rows: seq<Obligation>): set<Id> {
    set o | o in rows && |m(o)| >= o.minimum :: o.obligationId
  }

  function UnmetIds(m: Matcher, rows: seq<Obligation>): set<Id> {
    set o | o in rows && |m(o)| < o.minimum :: o.obligationId
  }

  function CountedIds(m: Matcher, rows: seq<Obligation>): set<Id> {
    set o, id | o in rows && |m(o)| >= o.minimum && id in m(o) :: id
  }

  /** The record that answers a well-posed question. */
  function Verdict(q: Question): AcceptanceRecord {
    LexIsTotalOrder();
    AcceptanceRecord(
      q.acceptanceId, q.specification,
      UnmetIds(MatcherOf(q), q.obligations) == {} && q.unresolved == [],
      Sorted(MetIds(MatcherOf(q), q.obligations), LexLeq),
      Sorted(UnmetIds(MatcherOf(q), q.obligations), LexLeq),
      Sorted(CountedIds(MatcherOf(q), q.obligations), LexLeq),
      Sorted(SetOf(q.unresolved), LexLeq))
  }

  lemma OneMoreRow(m: Matcher, rows: seq<Obligation>, o: Obligation)
    ensures MetIds(m, rows + [o]) == MetIds(m, rows) + if |m(o)| >= o.minimum then {o.obligationId} else {}
    ensures UnmetIds(m, rows + [o]) == UnmetIds(m, rows) + if |m(o)| >= o.minimum then {} else {o.obligationId}
    ensures CountedIds(m, rows + [o]) == CountedIds(m, rows) + if |m(o)| >= o.minimum then m(o) else {}
  {
    assert forall p :: p in rows + [o] <==> p in rows || p == o;
  }

  /** The engine's pass over the obligations. */
  method Tally(m: Matcher, rows: seq<Obligation>)
    returns (satisfied: seq<Id>, unsatisfied: seq<Id>, qualifying: set<Id>)
    ensures SetOf(satisfied) == MetIds(m, rows)
    ensures SetOf(unsatisfied) == UnmetIds(m, rows)
    ensures qualifying == CountedIds(m, rows)
  {
    satisfied, unsatisfied, qualifying := [], [], {};
    for n := 0 to |rows|
      invariant SetOf(satisfied) == MetIds(m, rows[..n])
      invariant SetOf(unsatisfied) == UnmetIds(m, rows[..n])
      invariant qualifying == CountedIds(m, rows[..n])
    {
      var o := rows[n];
      assert rows[..n + 1] == rows[..n] + [o];
      OneMoreRow(m, rows[..n], o);
      var matches := m(o);
      if |matches| >= o.minimum {
        SetOfAppend(satisfied, o.obligationId);
        satisfied := satisfied + [o.obligationId];
        qualifying := qualifying + matches;
      } else {
        SetOfAppend(unsatisfied, o.obligationId);
        unsatisfied := unsatisfied + [o.obligationId];
      }
    }
    assert rows[..|rows|] == rows;
  }

  method Evaluate(q: Question) returns (r: Option<AcceptanceRecord>)
    ensures r == if WellPosed(q) then Some(Verdict(q)) else None
  {
    if !WellPosed(q) { return None; }
    var satisfied, unsatisfied, qualifying := Tally(MatcherOf(q), q.obligations);
    LexIsTotalOrder();
    assert unsatisfied == [] <==> SetOf(unsatisfied) == {} by {
      if unsatisfied != [] { assert unsatisfied[0] in SetOf(unsatisfied); }
    }
    r := Some(AcceptanceRecord(
      q.acceptanceId, q.specification, unsatisfied == [] && q.unresolved == [],
      Sorted(SetOf(satisfied), LexLeq), Sorted(SetOf(unsatisfied), LexLeq),
      Sorted(qualifying, LexLeq), Sorted(SetOf(q.unresolved), LexLeq)));
  }

  // --------------------------------------------------------------- its meaning

  ghost function Qualifying(q: Question, o: Obligation): set<EvidenceRecord> {
    set e | e in q.evidence && Qualifies(e, o, q.specification, q.revisions)
  }

  lemma {:induction false} IdsCountRecords(es: set<EvidenceRecord>, ids: set<Id>)
    requires forall e, f | e in es && f in es && e.evidenceId == f.evidenceId :: e == f
    requires ids == set e | e in es :: e.evidenceId
    ensures |ids| == |es|
    decreases es
  {
    if es != {} {
      var e :| e in es;
      IdsCountRecords(es - {e}, ids - {e.evidenceId});
    }
  }

  lemma SameIdSameRecord(rows: seq<EvidenceRecord>, e: EvidenceRecord, f: EvidenceRecord)
    requires Distinct(EvidenceIds(rows)) && e in rows && f in rows && e.evidenceId == f.evidenceId
    ensures e == f
  {
    var i :| 0 <= i < |rows| && rows[i] == e;
    var j :| 0 <= j < |rows| && rows[j] == f;
    assert EvidenceIds(rows)[i] == EvidenceIds(rows)[j];
  }

  /** Counting ids is counting records. */
  lemma MatchesCountRecords(q: Question, o: Obligation)
    requires WellPosed(q)
    ensures |Matches(q, o)| == |Qualifying(q, o)|
  {
    forall e, f | e in Qualifying(q, o) && f in Qualifying(q, o) && e.evidenceId == f.evidenceId ensures e == f {
      SameIdSameRecord(q.evidence, e, f);
    }
    IdsCountRecords(Qualifying(q, o), Matches(q, o));
  }

  lemma SameIdSameObligation(rows: seq<Obligation>, o: Obligation, p: Obligation)
    requires Distinct(ObligationIds(rows)) && o in rows && p in rows && o.obligationId == p.obligationId
    ensures o == p
  {
    var i :| 0 <= i < |rows| && rows[i] == o;
    var j :| 0 <= j < |rows| && rows[j] == p;
    assert ObligationIds(rows)[i] == ObligationIds(rows)[j];
  }

  /** Accepted means: every obligation has its minimum of qualifying records and
      no finding is open. */
  lemma AcceptedMeans(q: Question)
    requires WellPosed(q)
    ensures Verdict(q).accepted <==>
      (forall o | o in q.obligations :: |Qualifying(q, o)| >= o.minimum) && q.unresolved == []
  {
    forall o | o in q.obligations ensures |Matches(q, o)| == |Qualifying(q, o)| {
      MatchesCountRecords(q, o);
    }
    if exists o :: o in q.obligations && !Met(q, o) {
      var o :| o in q.obligations && !Met(q, o);
      assert o.obligationId in UnmetIds(MatcherOf(q), q.obligations);
    }
  }

  /** The verdict sorts the obligations into met and unmet ones, each once. */
  lemma VerdictPartitions(q: Question, o: Obligation)
    requires WellPosed(q) && o in q.obligations
    ensures var r := Verdict(q);
            && SetOf(r.satisfied) + SetOf(r.unsatisfied) == SetOf(ObligationIds(q.obligations))
            && SetOf(r.satisfied) !! SetOf(r.unsatisfied)
            && Distinct(r.satisfied) && Distinct(r.unsatisfied)
            && (o.obligationId in r.satisfied <==> |Qualifying(q, o)| >= o.minimum)
  {
    var r, rows := Verdict(q), q.obligations;
    forall id ensures id in SetOf(ObligationIds(rows)) <==> exists p :: p in rows && p.obligationId == id {
      if id in ObligationIds(rows) {
        var i :| 0 <= i < |rows| && ObligationIds(rows)[i] == id;
        assert rows[i] in rows;
      }
      if p :| p in rows && p.obligationId == id {
        var i :| 0 <= i < |rows| && rows[i] == p;
        assert ObligationIds(rows)[i] == id;
      }
    }
    forall p, p' | p in rows && p' in rows && p.obligationId == p'.obligationId ensures p == p' {
      SameIdSameObligation(rows, p, p');
    }
    MatchesCountRecords(q, o);
    assert o.obligationId in r.satisfied <==> o.obligationId in SetOf(r.satisfied);
  }

  lemma SameRowsSameSets(m: Matcher, m': Matcher, rows: seq<Obligation>, rows': seq<Obligation>)
    requires SetOf(rows) == SetOf(rows') && forall o :: m(o) == m'(o)
    ensures MetIds(m', rows') == MetIds(m, rows)
    ensures UnmetIds(m', rows') == UnmetIds(m, rows)
    ensures CountedIds(m', rows') == CountedIds(m, rows)
  {
    assert forall o :: o in rows <==> o in SetOf(rows);
    assert forall o :: o in rows' <==> o in SetOf(rows');
  }

  /** The order of obligations, evidence and findings does not matter. */
  lemma VerdictIgnoresOrder(q: Question, q': Question)
    requires q'.acceptanceId == q.acceptanceId && q'.specification == q.specification && q'.revisions == q.revisions
    requires SetOf(q'.obligations) == SetOf(q.obligations)
    requires SetOf(q'.evidence) == SetOf(q.evidence)
    requires SetOf(q'.unresolved) == SetOf(q.unresolved)
    ensures Verdict(q') == Verdict(q)
  {
    assert forall e :: e in q'.evidence <==> e in SetOf(q'.evidence);
    assert forall e :: e in q.evidence <==> e in SetOf(q.evidence);
    forall o ensures MatcherOf(q')(o) == MatcherOf(q)(o) {
      assert Matches(q', o) == Matches(q, o);
    }
    SameRowsSameSets(MatcherOf(q), MatcherOf(q'), q.obligations, q'.obligations);
    if q.unresolved != [] { assert q.unresolved[0] in SetOf(q'.unresolved); }
    if q'.unresolved != [] { assert q'.unresolved[0] in SetOf(q.unresolved); }
  }

  /** More evidence never revokes anything. */
  lemma EvidenceAddsUp(q: Question, more: seq<EvidenceRecord>)
    requires WellPosed(q)
    ensures var q' := q.(evidence := q.evidence + more);
            && SetOf(Verdict(q).satisfied) <= SetOf(Verdict(q').satisfied)
            && SetOf(Verdict(q).qualifying) <= SetOf(Verdict(q').qualifying)
            && (Verdict(q).accepted ==> Verdict(q').accepted)
  {
    var q' := q.(evidence := q.evidence + more);
    forall o | o in q.obligations ensures Matches(q, o) <= Matches(q', o) && (Met(q, o) ==> Met(q', o)) {
      SubsetSize(Matches(q, o), Matches(q', o));
    }
  }

  // ------------------------------------------------- acceptance of a live run

  function CurrentRevisions(g: Graph): map<Id, nat> {
    map id | id in g.cells :: g.cells[id].revision
  }

  /** Evidence bound to a superseded revision never qualifies again. */
  lemma StaleEvidenceNeverQualifies(g: Graph, ops: seq<Op>, e: EvidenceRecord, o: Obligation, specification: string)
    requires Inv(g) && e.cellId in g.cells && e.cellRevision < g.cells[e.cellId].revision
    ensures !Qualifies(e, o, specification, CurrentRevisions(Run(g, ops)))
  {
    RunKeepsInv(g, ops);
  }

  function BlockingIds(g: Graph): set<Id> {
    set id, k | id in g.cells && k in g.cells[id].claims && Blocking(g.cells[id].claims[k]) :: k
  }

  /** evaluate_acceptance: blocking claims join the caller's open findings. */
  function RunQuestion(g: Graph, acceptanceId: Id, specification: string, obligations: seq<Obligation>,
                       evidence: seq<EvidenceRecord>, findings: seq<Id>): Question
  {
    LexIsTotalOrder();
    Question(acceptanceId, specification, CurrentRevisions(g), obligations, evidence,
             Sorted(BlockingIds(g) + SetOf(findings), LexLeq))
  }

  /** No run is accepted over a blocking claim. */
  lemma BlockingClaimForbidsAcceptance(g: Graph, acceptanceId: Id, specification: string,
                                       obligations: seq<Obligation>, evidence: seq<EvidenceRecord>, findings: seq<Id>)
    requires exists id :: id in g.cells && HasBlockingClaim(g.cells[id])
    ensures !Verdict(RunQuestion(g, acceptanceId, specification, obligations, evidence, findings)).accepted
  {
    var id :| id in g.cells && HasBlockingClaim(g.cells[id]);
    var k :| k in g.cells[id].claims && Blocking(g.cells[id].claims[k]);
    assert k in BlockingIds(g);
    LexIsTotalOrder();
    assert k in SetOf(Sorted(BlockingIds(g) + SetOf(findings), LexLeq));
  }
}
