/** Reservations and accepted results, kept as events of an idempotent log. */
module Dispatch {
  import opened Basics
  import Usage

  /** A job id is a digest of the dispatch key; digests are taken to be injective. */
  datatype JobId = JobOf(key: string)

  datatype Reservation = Reservation(
    jobId: JobId, key: string, cellId: Id, revision: nat, role: string, treatment: string)

  /** A finished job: what it was asked for, where its response is kept, and the
      usage its harness reported. */
  datatype Job = Job(
    reservation: Reservation, binding: string, responseRef: string, usage: Usage.Report, latencyMs: int)

  type Jobs = map<JobId, Job>

  /** The events a dispatch writes, without what nothing here depends on. Saved is
      a checkpoint of the jobs beside everything else a system remembers. */
  datatype Entry =
    | Reserved(reservation: Reservation)
    | Accepted(jobId: JobId, revision: nat, responseRef: string)
    | Stale(jobId: JobId, responseRevision: nat, currentRevision: nat, responseRef: string)
    | Noted(name: string, content: string)
    | Saved(name: string, jobs: Jobs, rest: string)

  datatype EntryId =
    | DispatchId(key: string)
    | AcceptedId(jobId: JobId)
    | StaleId(jobId: JobId, currentRevision: nat)
    | NotedId(name: string)
    | SavedId(name: string)

  type Log = seq<Entry>

  function IdOf(e: Entry): EntryId {
    match e
    case Reserved(r) => DispatchId(r.key)
    case Accepted(j, _, _) => AcceptedId(j)
    case Stale(j, _, current, _) => StaleId(j, current)
    case Noted(name, _) => NotedId(name)
    case Saved(name, _, _) => SavedId(name)
  }

  ghost predicate UniqueIds(log: Log) {
    forall i, j | 0 <= i < j < |log| :: IdOf(log[i]) != IdOf(log[j])
  }

  predicate Uses(log: Log, id: EntryId) {
    exists e | e in log :: IdOf(e) == id
  }

  /** An append under the ledger's lock: once, and refused on other content. */
  function Append(log: Log, e: Entry): Option<Log> {
    if e in log then Some(log)
    else if Uses(log, IdOf(e)) then None
    else Some(log + [e])
  }

  lemma SameIdSameEntry(log: Log, a: Entry, b: Entry)
    requires UniqueIds(log) && a in log && b in log && IdOf(a) == IdOf(b)
    ensures a == b
  {
    var i :| 0 <= i < |log| && log[i] == a;
    var j :| 0 <= j < |log| && log[j] == b;
    assert i == j;
  }

  lemma AppendKeeps(log: Log, e: Entry)
    requires UniqueIds(log) && Append(log, e).Some?
    ensures var longer := Append(log, e).value;
            && UniqueIds(longer) && e in longer && log <= longer
            && (forall x | x in log :: x in longer) && forall x | x in longer :: x in log || x == e
  {
    var longer := Append(log, e).value;
    if e !in log {
      forall i | 0 <= i < |log| ensures IdOf(log[i]) != IdOf(e) { assert log[i] in log; }
    }
  }

  // ---------- the journal ----------

  function Request(key: string, cellId: Id, revision: nat, role: string, treatment: string): Reservation {
    Reservation(JobOf(key), key, cellId, revision, role, treatment)
  }

  /** The first reservation made for the key. */
  function ReservedFor(log: Log, key: string): (r: Option<Reservation>)
    ensures r.Some? ==> Reserved(r.value) in log && r.value.key == key
    ensures r.None? ==> !Uses(log, DispatchId(key))
  {
    if log == [] then None
    else if log[0].Reserved? && log[0].reservation.key == key then Some(log[0].reservation)
    else
      var rest := ReservedFor(log[1..], key);
      assert forall e | e in log :: e == log[0] || e in log[1..];
      rest
  }

  /** The first reservation of the job. */
  function Find(log: Log, jobId: JobId): (r: Option<Reservation>)
    ensures r.Some? ==> Reserved(r.value) in log && r.value.jobId == jobId
    ensures r.None? ==> forall x | Reserved(x) in log :: x.jobId != jobId
  {
    if log == [] then None
    else if log[0].Reserved? && log[0].reservation.jobId == jobId then Some(log[0].reservation)
    else
      var rest := Find(log[1..], jobId);
      assert forall e | e in log :: e == log[0] || e in log[1..];
      rest
  }

  datatype JournalError = Idempotency | UnknownJob | StaleResult

  datatype Answer = Answer(log: Log, error: Option<JournalError>)

  /** What accept_response does to the log. */
  function Accepting(log: Log, jobId: JobId, response: nat, current: nat, responseRef: string): Answer {
    match Find(log, jobId)
    case None => Answer(log, Some(UnknownJob))
    case Some(r) =>
      var stale := response != r.revision || response != current;
      var e := if stale then Stale(jobId, response, current, responseRef) else Accepted(jobId, response, responseRef);
      match Append(log, e)
      case None => Answer(log, Some(Idempotency))
      case Some(longer) => Answer(longer, if stale then Some(StaleResult) else None)
  }

  class DispatchJournal {
    var log: Log

    constructor (log: Log)
      ensures this.log == log
    {
      this.log := log;
    }

    /** Reserve a key once; the same request again gets the same reservation, and
        any other request for the key is refused. */
    method Reserve(key: string, cellId: Id, revision: nat, role: string, treatment: string)
      returns (reservation: Option<Reservation>)
      requires UniqueIds(log)
      modifies this
      ensures UniqueIds(log)
      ensures var requested := Request(key, cellId, revision, role, treatment);
              match ReservedFor(old(log), key)
              case None => reservation == Some(requested) && log == old(log) + [Reserved(requested)]
              case Some(r) => log == old(log) && reservation == if r == requested then Some(r) else None
      ensures reservation.Some? ==> Reserved(reservation.value) in log
    {
      var requested := Request(key, cellId, revision, role, treatment);
      assert log[0..] == log;
      for i := 0 to |log|
        invariant log == old(log)
        invariant ReservedFor(log, key) == ReservedFor(log[i..], key)
      {
        assert log[i..][0] == log[i] && log[i..][1..] == log[i + 1..];
        if log[i].Reserved? && log[i].reservation.key == key {
          if log[i].reservation != requested { return None; }
          return Some(log[i].reservation);
        }
      }
      assert log[|log|..] == [];
      assert Append(log, Reserved(requested)) == Some(log + [Reserved(requested)]) by {
        assert Reserved(requested) in log ==> Uses(log, DispatchId(key));
      }
      AppendKeeps(log, Reserved(requested));
      log := log + [Reserved(requested)];
      reservation := Some(requested);
    }

    method FindReservation(jobId: JobId) returns (reservation: Option<Reservation>)
      ensures reservation == Find(log, jobId)
    {
      assert log[0..] == log;
      for i := 0 to |log|
        invariant Find(log, jobId) == Find(log[i..], jobId)
      {
        assert log[i..][0] == log[i] && log[i..][1..] == log[i + 1..];
        if log[i].Reserved? && log[i].reservation.jobId == jobId { return Some(log[i].reservation); }
      }
      assert log[|log|..] == [];
      reservation := None;
    }

    /** Accept a response whose revision is the reservation's and the Cell's; any
        other response leaves a stale record and is refused. */
    method AcceptResponse(jobId: JobId, response: nat, current: nat, responseRef: string)
      returns (error: Option<JournalError>)
      requires UniqueIds(log)
      modifies this
      ensures Answer(log, error) == Accepting(old(log), jobId, response, current, responseRef)
      ensures UniqueIds(log)
      ensures error.None? ==> Accepted(jobId, response, responseRef) in log && response == current
    {
      var found := FindReservation(jobId);
      if found.None? { return Some(UnknownJob); }
      if response != found.value.revision || response != current {
        var e := Stale(jobId, response, current, responseRef);
        var longer := Append(log, e);
        if longer.None? { return Some(Idempotency); }
        AppendKeeps(log, e);
        log := longer.value;
        return Some(StaleResult);
      }
      var e := Accepted(jobId, response, responseRef);
      var longer := Append(log, e);
      if longer.None? { return Some(Idempotency); }
      AppendKeeps(log, e);
      log := longer.value;
      error := None;
    }
  }
}
