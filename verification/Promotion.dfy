/** Snapshots, workspaces and the candidate pointer: a pointer replaced only by
    compare-and-swap, and the events that report it. */
module Promotion {
  import opened Basics

  /** Snapshots are content digests; what is in them is not modelled. */
  type Snapshot = string

  datatype PromotionError = Unauthorized | Integrity | Conflicting | StaleResult | Boundary

  // ---------- workspaces and pointer ----------

  /** What a run keeps on disk beside its log. */
  datatype Files = Files(stored: set<Snapshot>, pointer: Option<Snapshot>, workspaces: map<Id, Snapshot>)

  datatype Filed = Filed(files: Files, error: Option<PromotionError>)

  predicate Alphanumeric(c: char) {
    'A' <= c <= 'Z' || 'a' <= c <= 'z' || '0' <= c <= '9'
  }

  /** A job id that is safe as a directory name. */
  predicate SafeJob(id: Id) {
    && id != "" && Alphanumeric(id[0])
    && forall i | 0 < i < |id| :: Alphanumeric(id[i]) || id[i] == '_' || id[i] == '.' || id[i] == '-'
  }

  /** The pointer, if it names a snapshot that is there. */
  function Current(f: Files): Option<Snapshot> {
    if f.pointer.Some? && f.pointer.value in f.stored then f.pointer else None
  }

  function Preparing(f: Files, jobId: Id, base: Snapshot): Filed {
    if !SafeJob(jobId) || jobId in f.workspaces then Filed(f, Some(Boundary))
    else if base !in f.stored then Filed(f, Some(Integrity))
    else Filed(f.(workspaces := f.workspaces[jobId := base]), None)
  }

  function Promoting(f: Files, snapshot: Snapshot, expected: Snapshot, permitted: bool): Filed {
    if !permitted then Filed(f, Some(Unauthorized))
    else if snapshot !in f.stored || Current(f).None? then Filed(f, Some(Integrity))
    else if Current(f) != Some(expected) then Filed(f, Some(StaleResult))
    else Filed(f.(pointer := Some(snapshot)), None)
  }

  class WorkspaceManager {
    var stored: set<Snapshot>
    var pointer: Option<Snapshot>
    var workspaces: map<Id, Snapshot>

    constructor (stored: set<Snapshot>)
      ensures this.stored == stored && pointer == None && workspaces == map[]
    {
      this.stored, pointer, workspaces := stored, None, map[];
    }

    ghost function View(): Files
      reads this
    {
      Files(stored, pointer, workspaces)
    }

    /** Set the pointer once; setting it again is fine only to the same snapshot. */
    method Initialize(snapshot: Snapshot) returns (error: Option<PromotionError>)
      modifies `pointer
      ensures error.None? <==>
                snapshot in stored && (old(pointer) == None || old(pointer) == Some(snapshot))
      ensures pointer == if error.None? then Some(snapshot) else old(pointer)
      ensures Current(View()) == if error.None? then Some(snapshot) else old(Current(View()))
    {
      if snapshot !in stored { return Some(Integrity); }
      if pointer.Some? {
        if pointer.value !in stored { return Some(Integrity); }
        return if pointer.value != snapshot then Some(Conflicting) else None;
      }
      pointer := Some(snapshot);
      error := None;
    }

    /** The pointer, read back: nothing where its file or its snapshot is missing. */
    method CurrentSnapshot() returns (current: Option<Snapshot>)
      ensures current == Current(View())
      ensures current.Some? ==> current.value in stored
    {
      current := if pointer.Some? && pointer.value in stored then pointer else None;
    }

    /** A workspace is created once per job and never again. */
    method Prepare(jobId: Id, base: Snapshot) returns (error: Option<PromotionError>)
      modifies `workspaces
      ensures error.None? <==> SafeJob(jobId) && jobId !in old(workspaces) && base in stored
      ensures workspaces == if error.None? then old(workspaces)[jobId := base] else old(workspaces)
      ensures Filed(View(), error) == Preparing(old(View()), jobId, base)
    {
      if !SafeJob(jobId) || jobId in workspaces { return Some(Boundary); }
      if base !in stored { return Some(Integrity); }
      workspaces := workspaces[jobId := base];
      error := None;
    }

    /** Compare and swap. */
    method Promote(snapshot: Snapshot, expected: Snapshot, permitted: bool) returns (error: Option<PromotionError>)
      modifies `pointer
      ensures error.None? <==>
                permitted && snapshot in stored && expected in stored && old(pointer) == Some(expected)
      ensures pointer == if error.None? then Some(snapshot) else old(pointer)
      ensures error == Some(StaleResult) ==> old(pointer).Some? && old(pointer).value != expected
      ensures Filed(View(), error) == Promoting(old(View()), snapshot, expected, permitted)
      ensures Current(View()) == if error.None? then Some(snapshot) else old(Current(View()))
    {
      if !permitted { return Some(Unauthorized); }
      if snapshot !in stored { return Some(Integrity); }
      var current := CurrentSnapshot();
      if current.None? { return Some(Integrity); }
      if current.value != expected { return Some(StaleResult); }
      pointer := Some(snapshot);
      error := None;
    }
  }

  // ---------- events and their replay ----------

  datatype Event = Promoted(jobId: Id, snapshot: Snapshot, previous: Snapshot) | Noted(name: string)

  type Log = seq<Event>

  function Replayed(log: Log): Option<Snapshot> {
    if log == [] then None
    else
      var last := log[|log| - 1];
      if last.Promoted? then Some(last.snapshot) else Replayed(log[..|log| - 1])
  }

  /** The current_snapshot part of StateReducer.replay. */
  method Replay(log: Log) returns (current: Option<Snapshot>)
    ensures current == Replayed(log)
  {
    current := None;
    assert log[..0] == [];
    for i := 0 to |log|
      invariant current == Replayed(log[..i])
    {
      assert log[..i + 1][..i] == log[..i];
      if log[i].Promoted? { current := Some(log[i].snapshot); }
    }
    assert log[..|log|] == log;
  }

  predicate Reported(log: Log, jobId: Id) {
    exists e | e in log :: e.Promoted? && e.jobId == jobId
  }

  /** The event is keyed by the job: a second one adds nothing, whether its content
      is the same or is refused. */
  function Report(log: Log, jobId: Id, snapshot: Snapshot, previous: Snapshot): Log {
    if Reported(log, jobId) then log else log + [Promoted(jobId, snapshot, previous)]
  }

  lemma NotesChangeNothing(log: Log, name: string)
    ensures Replayed(log + [Noted(name)]) == Replayed(log)
    ensures forall j :: Reported(log + [Noted(name)], j) <==> Reported(log, j)
  {
    assert (log + [Noted(name)])[..|log|] == log;
    forall j ensures Reported(log + [Noted(name)], j) <==> Reported(log, j) {
      forall e | e in log ensures e in log + [Noted(name)] {}
    }
  }

  /** A new report is what replay then sees. */
  lemma NewReportIsSeen(log: Log, jobId: Id, snapshot: Snapshot, previous: Snapshot)
    ensures Replayed(Report(log, jobId, snapshot, previous)) ==
            if Reported(log, jobId) then Replayed(log) else Some(snapshot)
  {}
}
