/** The ledger shared by processes that lock, write byte by byte, and may die at
    any moment. A dead process loses its lock and leaves whatever it wrote. */
module LedgerSteps {
  import opened Basics
  import opened Ledger

  type Log = seq<Event>

  datatype Request = Request(eventId: Id, kind: string, actor: string, payload: Payload)

  /** Holding and Cleaning have the exclusive lock but have not read yet; Writing
      has what is left to write. */
  datatype Process =
    | Idle
    | Holding(request: Request)
    | Writing(event: Event, rest: Bytes)
    | Cleaning
    | Sharing

  /** What callers saw, in the order the lock was released to them. */
  datatype Observation = Returned(event: Event) | Seen(log: Log)

  /** Who holds the file lock, and what every process is doing. */
  datatype Locks = Locks(exclusive: Option<nat>, shared: set<nat>, processes: map<nat, Process>)
  {
    function Of(p: nat): Process {
      if p in processes then processes[p] else Idle
    }

    function Become(p: nat, now: Process): Locks {
      this.(processes := processes[p := now])
    }

    function Release(p: nat): Locks {
      Become(p, Idle).(exclusive := if exclusive == Some(p) then None else exclusive, shared := shared - {p})
    }

    function Exclude(p: nat, now: Process): Locks {
      Become(p, now).(exclusive := Some(p))
    }

    function Share(p: nat): Locks {
      Become(p, Sharing).(shared := shared + {p})
    }

    /** What the holder of the exclusive lock does. */
    function Holder(): Process {
      if exclusive.Some? then Of(exclusive.value) else Idle
    }
  }

  datatype State = State(file: Bytes, locks: Locks, trace: seq<Observation>)

  datatype Step =
    | LockToAppend(p: nat, request: Request)
    | LockToClean(p: nat)
    | LockToVerify(p: nat)
    | Prepare(p: nat, now: string)
    | WriteByte(p: nat)
    | Finish(p: nat)
    | Clean(p: nat)
    | Verify(p: nat)
    | Crash(p: nat)

  const START := State([], Locks(None, {}, map[]), [])

  function Freed(s: State, p: nat): State {
    s.(locks := s.locks.Release(p))
  }

  function Observe(s: State, o: Observation): State {
    s.(trace := s.trace + [o])
  }

  /** What _read_unlocked makes of a file. */
  ghost function Parse(f: Format, raw: Bytes): (r: Option<Log>)
    ensures r.Some? ==> Reads(f, raw, r.value)
    ensures r.None? ==> forall log :: !Reads(f, raw, log)
  {
    if log :| Reads(f, raw, log) then Some(log) else None
  }

  function EventWith(log: Log, id: Id): (e: Event)
    requires id in EventIds(log)
    ensures e in log && e.basis.eventId == id
  {
    assert exists i :: 0 <= i < |log| && EventIds(log)[i] == id;
    if log[0].basis.eventId == id then log[0]
    else
      assert EventIds(log[1..]) == EventIds(log)[1..];
      EventWith(log[1..], id)
  }

  ghost function Prepared(f: Format, s: State, p: nat, r: Request, now: string): State {
    var log := Parse(f, s.file);
    if log.None? then Freed(s, p)
    else if r.eventId in EventIds(log.value) then
      var e := EventWith(log.value, r.eventId);
      if SameContent(e, r.kind, r.actor, r.payload) then Observe(Freed(s, p), Returned(e)) else Freed(s, p)
    else
      var e := Seal(f, NextBasis(f, log.value, r.eventId, r.kind, r.actor, now, r.payload));
      s.(locks := s.locks.Become(p, Writing(e, Line(f, e))))
  }

  ghost function Next(f: Format, s: State, step: Step): State {
    var now := s.locks.Of(step.p);
    var free := s.locks.exclusive.None? && s.locks.shared == {};
    match step
    case LockToAppend(p, r) =>
      if now.Idle? && free && f.clean(r.payload) then s.(locks := s.locks.Exclude(p, Holding(r))) else s
    case LockToClean(p) =>
      if now.Idle? && free then s.(locks := s.locks.Exclude(p, Cleaning)) else s
    case LockToVerify(p) =>
      if now.Idle? && s.locks.exclusive.None? then s.(locks := s.locks.Share(p)) else s
    case Prepare(p, time) =>
      if now.Holding? then Prepared(f, s, p, now.request, time) else s
    case WriteByte(p) =>
      if now.Writing? && now.rest != []
      then s.(locks := s.locks.Become(p, Writing(now.event, now.rest[1..])), file := s.file + [now.rest[0]]) else s
    case Finish(p) =>
      if now.Writing? && now.rest == [] then Observe(Freed(s, p), Returned(now.event)) else s
    case Clean(p) =>
      if now.Cleaning?
      then Freed(s, p).(file := if Whole(s.file) then s.file else s.file[..Boundary(s.file)]) else s
    case Verify(p) =>
      if now.Sharing? then
        var log := Parse(f, s.file);
        if log.Some? then Observe(Freed(s, p), Seen(log.value)) else Freed(s, p)
      else s
    case Crash(p) => Freed(s, p)
  }

  ghost function Run(f: Format, s: State, steps: seq<Step>): State {
    if steps == [] then s
    else Next(f, Run(f, s, steps[..|steps| - 1]), steps[|steps| - 1])
  }

  // ---------- invariant ----------

  /** The locks are held by exactly the processes that behave so. */
  ghost predicate LockAt(l: Locks, p: nat) {
    && (l.exclusive == Some(p) <==> l.Of(p).Holding? || l.Of(p).Writing? || l.Of(p).Cleaning?)
    && (p in l.shared <==> l.Of(p).Sharing?)
  }

  ghost predicate Locked(f: Format, l: Locks) {
    && (forall p {:trigger LockAt(l, p)} :: LockAt(l, p))
    && (l.exclusive.Some? ==> l.shared == {})
    && (l.Holder().Holding? ==> f.clean(l.Holder().request.payload))
  }

  ghost predicate Cut(base: Bytes, file: Bytes) {
    base <= file && forall i | |base| <= i < |file| :: file[i] != LF
  }

  /** Only a writer in the middle of a record, or a dead one, makes the file differ
      from the committed bytes. */
  ghost predicate Committed(f: Format, holder: Process, file: Bytes, base: Bytes, log: Log) {
    && Reads(f, base, log) && Cut(base, file)
    && (holder.Writing? ==> WriterAt(f, holder, file, base, log))
  }

  ghost predicate WriterAt(f: Format, w: Process, file: Bytes, base: Bytes, log: Log)
    requires w.Writing?
  {
    if w.rest == [] then file == base && w.event in log
    else Continues(f, log, w.event) && file + w.rest == base + Line(f, w.event)
  }

  ghost predicate Bound(f: Format, o: Observation, log: Log) {
    match o
    case Returned(e) => e in log
    case Seen(seen) => seen <= log && Verified(f, seen)
  }

  /** A log seen later extends one seen earlier and holds every event returned
      before it; an event returned later is in the earlier log or comes after it;
      an id names one event. */
  predicate Ordered(a: Observation, b: Observation) {
    match (a, b)
    case (Seen(x), Seen(y)) => x <= y
    case (Returned(e), Seen(y)) => e in y
    case (Seen(x), Returned(e)) => e in x || e.basis.seqNo > |x|
    case (Returned(d), Returned(e)) => d.basis.eventId == e.basis.eventId ==> d == e
  }

  ghost predicate InOrder(f: Format, trace: seq<Observation>, log: Log) {
    && (forall i | 0 <= i < |trace| :: Bound(f, trace[i], log))
    && forall i, j | 0 <= i < j < |trace| :: Ordered(trace[i], trace[j])
  }

  ghost predicate Inv(f: Format, s: State, base: Bytes, log: Log) {
    && Locked(f, s.locks) && Committed(f, s.locks.Holder(), s.file, base, log)
    && InOrder(f, s.trace, log)
  }

  // ---------- what each part needs ----------

  lemma CutWhole(base: Bytes, file: Bytes)
    requires Cut(base, file) && Whole(base)
    ensures Whole(file) <==> file == base
    ensures file[..Boundary(file)] == base
  {
    assert file[..|base|] == base;
    BoundaryIs(file, |base|);
    assert Whole(file) ==> |file| == 0 || file[|file| - 1] == LF;
  }

  /** A reader gets the committed log, or is refused because of a partial tail. */
  lemma ParseGivesLog(f: Format, file: Bytes, base: Bytes, log: Log)
    requires Reads(f, base, log) && Cut(base, file)
    ensures Parse(f, file) == if Whole(file) then Some(log) else None
    ensures Whole(file) ==> file == base
  {
    CutWhole(base, file);
    if Whole(file) {
      var r := Parse(f, file);
      assert Reads(f, file, log);
      ReadsOnce(f, file, r.value, log);
    }
  }

  lemma ReleaseKeepsLocks(f: Format, l: Locks, p: nat)
    requires Locked(f, l)
    ensures Locked(f, l.Release(p)) && (l.Release(p).Holder().Writing? ==> l.Release(p).Holder() == l.Holder())
  {
    assert LockAt(l, p);
    forall q {:trigger LockAt(l.Release(p), q)} ensures LockAt(l.Release(p), q) {
      assert LockAt(l, q);
    }
  }

  /** Changing what the holder of the exclusive lock does. */
  lemma HolderKeepsLocks(f: Format, l: Locks, p: nat, now: Process)
    requires Locked(f, l) && l.exclusive == Some(p) && now.Writing?
    ensures Locked(f, l.Become(p, now))
  {
    forall q {:trigger LockAt(l.Become(p, now), q)} ensures LockAt(l.Become(p, now), q) {
      assert LockAt(l, q);
    }
  }

  lemma ExcludeKeepsLocks(f: Format, l: Locks, p: nat, now: Process)
    requires Locked(f, l) && l.Of(p).Idle? && l.exclusive.None? && l.shared == {}
    requires now.Cleaning? || (now.Holding? && f.clean(now.request.payload))
    ensures Locked(f, l.Exclude(p, now))
  {
    forall q {:trigger LockAt(l.Exclude(p, now), q)} ensures LockAt(l.Exclude(p, now), q) {
      assert LockAt(l, q);
    }
  }

  lemma ShareKeepsLocks(f: Format, l: Locks, p: nat)
    requires Locked(f, l) && l.Of(p).Idle? && l.exclusive.None?
    ensures Locked(f, l.Share(p))
  {
    forall q {:trigger LockAt(l.Share(p), q)} ensures LockAt(l.Share(p), q) {
      assert LockAt(l, q);
    }
  }

  lemma LongerKeepsOrder(f: Format, trace: seq<Observation>, log: Log, longer: Log)
    requires InOrder(f, trace, log) && log <= longer
    ensures InOrder(f, trace, longer)
  {
    forall i | 0 <= i < |trace| ensures Bound(f, trace[i], longer) {
      assert Bound(f, trace[i], log);
    }
  }

  lemma SeenKeepsOrder(f: Format, trace: seq<Observation>, log: Log)
    requires InOrder(f, trace, log) && Verified(f, log)
    ensures InOrder(f, trace + [Seen(log)], log)
  {
    var more := trace + [Seen(log)];
    forall i | 0 <= i < |trace| ensures Ordered(more[i], Seen(log)) {
      assert Bound(f, trace[i], log);
    }
  }

  lemma ReturnedKeepsOrder(f: Format, trace: seq<Observation>, log: Log, e: Event)
    requires InOrder(f, trace, log) && Verified(f, log) && e in log
    ensures InOrder(f, trace + [Returned(e)], log)
  {
    var more := trace + [Returned(e)];
    var k :| 0 <= k < |log| && log[k] == e;
    assert ChainedAt(f, log, k);
    OnlyOne(f, log, k);
    forall i | 0 <= i < |trace| ensures Ordered(more[i], Returned(e)) {
      assert Bound(f, trace[i], log);
      if trace[i].Seen? && k < |trace[i].log| { assert trace[i].log[k] == e; }
    }
  }

  // ---------- every step ----------

  /** A byte more of a record: the file stays cut, or the record is complete. */
  lemma WriteKeepsCommitted(f: Format, file: Bytes, base: Bytes, log: Log, e: Event, rest: Bytes)
    returns (base': Bytes, log': Log)
    requires Faithful(f) && Reads(f, base, log) && Cut(base, file)
    requires rest != [] && WriterAt(f, Writing(e, rest), file, base, log)
    ensures Reads(f, base', log') && Cut(base', file + [rest[0]]) && log <= log'
    ensures WriterAt(f, Writing(e, rest[1..]), file + [rest[0]], base', log')
  {
    var after := file + [rest[0]];
    var whole := base + Line(f, e);
    assert after + rest[1..] == file + rest == whole;
    if rest[1..] == [] {
      assert after == whole;
      ReadsMore(f, base, log, e);
      base', log' := after, log + [e];
    } else {
      base', log' := base, log;
      assert EncodesAt(f, e);
      var k := |file| - |base|;
      assert whole[|file|] == rest[0] && whole[|file|] == Line(f, e)[k] && k < |f.enc(e)|;
    }
  }

  lemma PrepareKeeps(f: Format, s: State, p: nat, now: string, base: Bytes, log: Log)
    requires Faithful(f) && Inv(f, s, base, log) && s.locks.Of(p).Holding?
    ensures Inv(f, Prepared(f, s, p, s.locks.Of(p).request, now), base, log)
  {
    var r := s.locks.Of(p).request;
    assert LockAt(s.locks, p);
    ParseGivesLog(f, s.file, base, log);
    ReleaseKeepsLocks(f, s.locks, p);
    if Whole(s.file) {
      if r.eventId in EventIds(log) {
        ReturnedKeepsOrder(f, s.trace, log, EventWith(log, r.eventId));
      } else {
        var e := Seal(f, NextBasis(f, log, r.eventId, r.kind, r.actor, now, r.payload));
        HolderKeepsLocks(f, s.locks, p, Writing(e, Line(f, e)));
      }
    }
  }

  lemma StepKeeps(f: Format, s: State, step: Step, base: Bytes, log: Log)
    returns (base': Bytes, log': Log)
    requires Faithful(f) && Inv(f, s, base, log)
    ensures Inv(f, Next(f, s, step), base', log') && log <= log'
  {
    base', log' := base, log;
    var p := step.p;
    var now := s.locks.Of(p);
    assert LockAt(s.locks, p);
    ReleaseKeepsLocks(f, s.locks, p);
    match step
    case LockToAppend(_, r) =>
      if Next(f, s, step) != s { ExcludeKeepsLocks(f, s.locks, p, Holding(r)); }
    case LockToClean(_) =>
      if Next(f, s, step) != s { ExcludeKeepsLocks(f, s.locks, p, Cleaning); }
    case LockToVerify(_) =>
      if Next(f, s, step) != s { ShareKeepsLocks(f, s.locks, p); }
    case Prepare(_, time) =>
      if now.Holding? { PrepareKeeps(f, s, p, time, base, log); }
    case WriteByte(_) =>
      if now.Writing? && now.rest != [] {
        base', log' := WriteKeepsCommitted(f, s.file, base, log, now.event, now.rest);
        HolderKeepsLocks(f, s.locks, p, Writing(now.event, now.rest[1..]));
        LongerKeepsOrder(f, s.trace, log, log');
      }
    case Finish(_) =>
      if now.Writing? && now.rest == [] { ReturnedKeepsOrder(f, s.trace, log, now.event); }
    case Clean(_) =>
      if now.Cleaning? { CutWhole(base, s.file); }
    case Verify(_) =>
      if now.Sharing? {
        ParseGivesLog(f, s.file, base, log);
        SeenKeepsOrder(f, s.trace, log);
      }
    case Crash(_) =>
  }

  /** Every run of any processes from an empty ledger keeps the invariant. */
  lemma {:induction false} EveryLedgerRun(f: Format, steps: seq<Step>) returns (base: Bytes, log: Log)
    requires Faithful(f)
    ensures Inv(f, Run(f, START, steps), base, log)
  {
    if steps == [] {
      base, log := [], [];
      forall p {:trigger LockAt(START.locks, p)} ensures LockAt(START.locks, p) {}
    } else {
      var base0, log0 := EveryLedgerRun(f, steps[..|steps| - 1]);
      base, log := StepKeeps(f, Run(f, START, steps[..|steps| - 1]), steps[|steps| - 1], base0, log0);
    }
  }

  /** Linearizability: whatever the interleaving and the crashes, the logs callers
      see verify and grow, no returned event is lost, and an id names one event. */
  lemma ObservationsAreOrdered(f: Format, steps: seq<Step>, i: nat, j: nat)
    requires Faithful(f) && i < j < |Run(f, START, steps).trace|
    ensures Ordered(Run(f, START, steps).trace[i], Run(f, START, steps).trace[j])
    ensures Run(f, START, steps).trace[j].Seen? ==> Verified(f, Run(f, START, steps).trace[j].log)
  {
    var base, log := EveryLedgerRun(f, steps);
    assert Bound(f, Run(f, START, steps).trace[j], log);
  }

  /** Outside the exclusive lock the file reads, unless a writer died inside a
      record; then one quarantine makes it read again, losing nothing committed. */
  lemma QuarantineHeals(f: Format, steps: seq<Step>)
    requires Faithful(f) && Run(f, START, steps).locks.exclusive.None?
    ensures var file := Run(f, START, steps).file;
            && (Whole(file) <==> exists log :: Reads(f, file, log))
            && (exists log :: Reads(f, file[..Boundary(file)], log))
            && forall o, log | o in Run(f, START, steps).trace && Reads(f, file[..Boundary(file)], log) ::
                Bound(f, o, log)
  {
    var base, log := EveryLedgerRun(f, steps);
    var s := Run(f, START, steps);
    CutWhole(base, s.file);
    ParseGivesLog(f, s.file, base, log);
    assert Reads(f, s.file[..Boundary(s.file)], log);
    forall o, l | o in s.trace && Reads(f, s.file[..Boundary(s.file)], l) ensures Bound(f, o, l) {
      ReadsOnce(f, base, log, l);
      var i :| 0 <= i < |s.trace| && s.trace[i] == o;
      assert Bound(f, s.trace[i], log);
    }
  }
}
