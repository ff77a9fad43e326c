/** Dispatches of any number of processes over one log, one directory of
    workspaces and harnesses that may fail, with crashes and reopenings. */
module DispatchSteps {
  import opened Basics
  import opened Dispatch
  import Usage

  /** Where a process is in a dispatch; Ready remembers nothing but its jobs. */
  datatype Phase =
    | Ready
    | Asking(requested: Reservation, binding: string)
    | Holding(reservation: Reservation, binding: string)
    | Prepared(reservation: Reservation, binding: string)
    | Started(reservation: Reservation, binding: string)
    | Ran(reservation: Reservation, binding: string, revision: nat, responseRef: string,
          usage: Usage.Report, latencyMs: int)
    | Finishing(job: Job)

  datatype Process = Down | Up(jobs: Jobs, phase: Phase)

  /** What callers of reserve and dispatch get. */
  datatype Reply = Granted(reservation: Reservation) | Returned(key: string, jobId: JobId, responseRef: string)

  /** runs: the jobs whose harness was launched, in that order; whether it ever returned
      or its process died beside it is not asked. */
  datatype State = State(
    log: Log, workspaces: set<JobId>, runs: seq<JobId>, processes: map<nat, Process>, replies: seq<Reply>,
    charges: map<nat, Usage.Charges>)

  datatype Step =
    | Scan(p: nat, requested: Reservation, binding: string)
    | Reserve(p: nat)
    | Prepare(p: nat)
    | Start(p: nat, rest: string)
    | Execute(p: nat, revision: nat, responseRef: string, usage: Usage.Report, latencyMs: int)
    | ExecuteFails(p: nat, rest: string)
    | Accept(p: nat, current: nat)
    | Finish(p: nat, rest: string)
    | Raise(p: nat)
    | Checkpoint(p: nat, name: string, content: string, rest: string)
    | Crash(p: nat)
    | Open(p: nat)

  /** A new run has one checkpoint, without jobs. */
  const START := State([Saved("run.created", map[], "")], {}, [], map[], [], map[])

  function Of(s: State, p: nat): Process {
    if p in s.processes then s.processes[p] else Down
  }

  function Become(s: State, p: nat, jobs: Jobs, phase: Phase): State {
    s.(processes := s.processes[p := Up(jobs, phase)])
  }

  function Replied(s: State, r: Reply): State {
    s.(replies := s.replies + [r])
  }

  /** An event and the checkpoint that follows it; nothing further where refused. */
  function Note(log: Log, name: string, content: string, jobs: Jobs, rest: string): (Log, bool) {
    match Append(log, Noted(name, content))
    case None => (log, false)
    case Some(noted) =>
      match Append(noted, Saved(name, jobs, rest))
      case None => (noted, false)
      case Some(saved) => (saved, true)
  }

  function LastJobs(log: Log): Option<Jobs> {
    if log == [] then None
    else if log[|log| - 1].Saved? then Some(log[|log| - 1].jobs)
    else LastJobs(log[..|log| - 1])
  }

  // ---------- usage ----------

  /** What a process has charged since it was created or opened. */
  function ChargesOf(s: State, p: nat): Usage.Charges {
    if p in s.charges then s.charges[p] else map[]
  }

  function NameOf(j: JobId): Id {
    "job-" + j.key
  }

  function UsageOf(j: JobId, usage: Usage.Report, latencyMs: int): Usage.Request {
    Usage.Request(NameOf(j), usage, latencyMs)
  }

  function RequestOf(j: JobId, job: Job): Usage.Request {
    UsageOf(j, job.usage, job.latencyMs)
  }

  predicate JobsMeasurable(jobs: Jobs) {
    forall j | j in jobs :: Usage.Measurable(RequestOf(j, jobs[j]))
  }

  function ChargeFor(jobs: Jobs, j: JobId): Usage.Charge
    requires JobsMeasurable(jobs) && j in jobs
  {
    Usage.ChargeOf(RequestOf(j, jobs[j]))
  }

  /** The charges opening makes for the jobs of a checkpoint. */
  function Recharged(jobs: Jobs): Usage.Charges
    requires JobsMeasurable(jobs)
  {
    assert forall i, j :: NameOf(i) == NameOf(j) ==> i == j by { NamesDiffer(); }
    map j | j in jobs :: NameOf(j) := ChargeFor(jobs, j)
  }

  lemma NamesDiffer()
    ensures forall i, j :: NameOf(i) == NameOf(j) ==> i == j
  {
    forall i, j | NameOf(i) == NameOf(j) ensures i == j {
      assert NameOf(i)[4..] == i.key && NameOf(j)[4..] == j.key;
    }
  }

  function NextUp(s: State, step: Step, jobs: Jobs, at: Phase): State {
    var p := step.p;
    match step
    case Scan(_, r, binding) =>
      if !at.Ready? || r.jobId != JobOf(r.key) then s
      else
        var existing := ReservedFor(s.log, r.key);
        if existing.None? then Become(s, p, jobs, Asking(r, binding))
        else if existing.value == r then Replied(Become(s, p, jobs, Holding(r, binding)), Granted(r))
        else s
    case Reserve(_) =>
      if !at.Asking? then s
      else
        var longer := Append(s.log, Reserved(at.requested));
        if longer.None? then Become(s, p, jobs, Ready)
        else Replied(Become(s, p, jobs, Holding(at.requested, at.binding)), Granted(at.requested)).(log := longer.value)
    case Prepare(_) =>
      if !at.Holding? then s
      else
        var j := at.reservation.jobId;
        if j in jobs then
          if jobs[j].binding == at.binding
          then Replied(Become(s, p, jobs, Ready), Returned(at.reservation.key, j, jobs[j].responseRef))
          else Become(s, p, jobs, Ready)
        else if j in s.workspaces then Become(s, p, jobs, Ready)
        else Become(s, p, jobs, Prepared(at.reservation, at.binding)).(workspaces := s.workspaces + {j})
    case Start(_, rest) =>
      if !at.Prepared? then s
      else
        var (log, ok) := Note(s.log, "harness.started:" + at.reservation.key, "", jobs, rest);
        Become(s, p, jobs, if ok then Started(at.reservation, at.binding) else Ready)
          .(log := log, runs := if ok then s.runs + [at.reservation.jobId] else s.runs)
    case Execute(_, revision, responseRef, usage, latencyMs) =>
      if !at.Started? then s
      else Become(s, p, jobs, Ran(at.reservation, at.binding, revision, responseRef, usage, latencyMs))
    case ExecuteFails(_, rest) =>
      if !at.Started? then s
      else
        var (log, _) := Note(s.log, "harness.failed:" + at.reservation.key, "", jobs, rest);
        Become(s, p, jobs, Ready).(log := log)
    case Accept(_, current) =>
      if !at.Ran? then s
      else
        var j := at.reservation.jobId;
        var charged := Usage.Charging(ChargesOf(s, p), UsageOf(j, at.usage, at.latencyMs));
        if charged.None? then Become(s, p, jobs, Ready)
        else
          var t := s.(charges := s.charges[p := charged.value]);
          var a := Accepting(s.log, j, at.revision, current, at.responseRef);
          if a.error.Some? then Become(t, p, jobs, Ready).(log := a.log)
          else
            var job := Job(at.reservation, at.binding, at.responseRef, at.usage, at.latencyMs);
            Become(t, p, jobs[j := job], Finishing(job)).(log := a.log)
    case Finish(_, rest) =>
      if !at.Finishing? then s
      else
        var r := at.job.reservation;
        var saved := Append(s.log, Saved("job.completed:" + r.key, jobs, rest));
        if saved.None? then Become(s, p, jobs, Ready)
        else
          var (log, ok) := Note(saved.value, "harness.completed:" + r.key, at.job.responseRef, jobs, rest);
          var t := Become(s, p, jobs, Ready).(log := log);
          if ok then Replied(t, Returned(r.key, r.jobId, at.job.responseRef)) else t
    case Raise(_) => Become(s, p, jobs, Ready)
    case Checkpoint(_, name, content, rest) =>
      if !at.Ready? then s else s.(log := Note(s.log, name, content, jobs, rest).0)
    case Crash(_) => s.(processes := s.processes[p := Down])
    case Open(_) => s
  }

  function Next(s: State, step: Step): State {
    match Of(s, step.p)
    case Up(jobs, at) => NextUp(s, step, jobs, at)
    case Down =>
      if step.Open? && LastJobs(s.log).Some? && JobsMeasurable(LastJobs(s.log).value)
      then Become(s, step.p, LastJobs(s.log).value, Ready)
           .(charges := s.charges[step.p := Recharged(LastJobs(s.log).value)])
      else s
  }

  function Run(s: State, steps: seq<Step>): State {
    if steps == [] then s else Next(Run(s, steps[..|steps| - 1]), steps[|steps| - 1])
  }

  // ---------- invariant ----------

  /** The job's result was accepted with this response. */
  ghost predicate Backed(log: Log, j: JobId, job: Job) {
    && job.reservation.jobId == j && Reserved(job.reservation) in log
    && Accepted(j, job.reservation.revision, job.responseRef) in log
  }

  ghost predicate JobsBacked(log: Log, jobs: Jobs) {
    forall j | j in jobs :: Backed(log, j, jobs[j])
  }

  ghost predicate EntryOk(log: Log, e: Entry) {
    match e
    case Reserved(r) => r.jobId == JobOf(r.key)
    case Accepted(j, revision, _) => exists r :: Reserved(r) in log && r.jobId == j && r.revision == revision
    case Saved(_, jobs, _) => JobsBacked(log, jobs)
    case _ => true
  }

  ghost predicate LogOk(log: Log) {
    && UniqueIds(log)
    && forall e | e in log :: EntryOk(log, e)
  }

  /** About to run the harness of this job. */
  predicate Armed(at: Phase) {
    at.Prepared? || at.Started?
  }

  ghost predicate PhaseOk(log: Log, workspaces: set<JobId>, runs: seq<JobId>, jobs: Jobs, at: Phase) {
    match at
    case Ready => true
    case Asking(r, _) => r.jobId == JobOf(r.key)
    case Holding(r, _) => Reserved(r) in log
    case Prepared(r, _) => Reserved(r) in log && r.jobId in workspaces && r.jobId !in runs
    case Started(r, _) => Reserved(r) in log && r.jobId in workspaces
    case Ran(r, _, _, _, _, _) => Reserved(r) in log
    case Finishing(job) => Backed(log, job.reservation.jobId, job)
  }

  ghost predicate ProcessOk(s: State, p: nat) {
    Of(s, p).Up? ==>
      && JobsBacked(s.log, Of(s, p).jobs)
      && PhaseOk(s.log, s.workspaces, s.runs, Of(s, p).jobs, Of(s, p).phase)
  }

  /** Two processes are never about to run one job. */
  ghost predicate Exclusive(s: State, p: nat, q: nat) {
    p != q && Of(s, p).Up? && Of(s, q).Up? && Armed(Of(s, p).phase) && Armed(Of(s, q).phase) ==>
      Of(s, p).phase.reservation.jobId != Of(s, q).phase.reservation.jobId
  }

  ghost predicate ReplyOk(log: Log, r: Reply) {
    match r
    case Granted(reservation) => Reserved(reservation) in log
    case Returned(key, j, responseRef) =>
      j == JobOf(key) && exists revision :: Accepted(j, revision, responseRef) in log
  }

  ghost predicate Inv(s: State) {
    && LogOk(s.log)
    && Distinct(s.runs) && SetOf(s.runs) <= s.workspaces
    && (forall p {:trigger ProcessOk(s, p)} :: ProcessOk(s, p))
    && (forall p, q {:trigger Exclusive(s, p, q)} :: Exclusive(s, p, q))
    && forall i | 0 <= i < |s.replies| :: ReplyOk(s.log, s.replies[i])
  }

  // ---------- logs only grow ----------

  ghost predicate Grows(log: Log, longer: Log) {
    forall e | e in log :: e in longer
  }

  lemma GrowingKeepsEntries(log: Log, longer: Log, e: Entry)
    requires Grows(log, longer) && EntryOk(log, e)
    ensures EntryOk(longer, e)
  {}

  lemma AppendOk(log: Log, e: Entry)
    requires LogOk(log) && Append(log, e).Some? && EntryOk(Append(log, e).value, e)
    ensures LogOk(Append(log, e).value) && Grows(log, Append(log, e).value) && e in Append(log, e).value
  {
    AppendKeeps(log, e);
    var longer := Append(log, e).value;
    forall x | x in longer ensures EntryOk(longer, x) {
      if x in log { GrowingKeepsEntries(log, longer, x); }
    }
  }

  lemma NoteOk(log: Log, name: string, content: string, jobs: Jobs, rest: string)
    requires LogOk(log) && JobsBacked(log, jobs)
    ensures LogOk(Note(log, name, content, jobs, rest).0)
    ensures Grows(log, Note(log, name, content, jobs, rest).0)
  {
    if Append(log, Noted(name, content)).Some? {
      AppendOk(log, Noted(name, content));
      var noted := Append(log, Noted(name, content)).value;
      if Append(noted, Saved(name, jobs, rest)).Some? {
        AppendKeeps(noted, Saved(name, jobs, rest));
        AppendOk(noted, Saved(name, jobs, rest));
      }
    }
  }

  lemma ReserveOk(log: Log, r: Reservation)
    requires LogOk(log) && r.jobId == JobOf(r.key) && Append(log, Reserved(r)).Some?
    ensures LogOk(Append(log, Reserved(r)).value) && Grows(log, Append(log, Reserved(r)).value)
    ensures Reserved(r) in Append(log, Reserved(r)).value
  {
    AppendOk(log, Reserved(r));
  }

  /** A job has one reservation. */
  lemma FindsTheReservation(log: Log, r: Reservation)
    requires LogOk(log) && Reserved(r) in log
    ensures Find(log, r.jobId) == Some(r)
  {
    var found := Find(log, r.jobId);
    assert found.Some?;
    assert EntryOk(log, Reserved(r)) && EntryOk(log, Reserved(found.value));
    SameIdSameEntry(log, Reserved(r), Reserved(found.value));
  }

  lemma AcceptingOk(log: Log, r: Reservation, response: nat, current: nat, responseRef: string)
    requires LogOk(log) && Reserved(r) in log
    ensures var a := Accepting(log, r.jobId, response, current, responseRef);
            && LogOk(a.log) && Grows(log, a.log)
            && (a.error.None? ==> response == r.revision && Accepted(r.jobId, r.revision, responseRef) in a.log)
  {
    FindsTheReservation(log, r);
    var stale := response != r.revision || response != current;
    var e := if stale then Stale(r.jobId, response, current, responseRef) else Accepted(r.jobId, response, responseRef);
    if Append(log, e).Some? {
      AppendKeeps(log, e);
      assert Reserved(r) in Append(log, e).value;
      AppendOk(log, e);
    }
  }

  lemma {:induction false} LastJobsBacked(log: Log, prefix: Log)
    requires LogOk(log) && prefix <= log && LastJobs(prefix).Some?
    ensures JobsBacked(log, LastJobs(prefix).value)
    decreases |prefix|
  {
    var last := prefix[|prefix| - 1];
    if last.Saved? {
      assert log[|prefix| - 1] == last && EntryOk(log, last);
    } else {
      LastJobsBacked(log, prefix[..|prefix| - 1]);
    }
  }

  // ---------- every step ----------

  function ArmedJob(at: Phase): JobId
    requires Armed(at)
  {
    at.reservation.jobId
  }

  /** A step of one process: what it may change, and what that takes. */
  ghost predicate Moves(s: State, t: State, p: nat) {
    && (forall q {:trigger Of(t, q)} | q != p :: Of(t, q) == Of(s, q))
    && Grows(s.log, t.log) && s.workspaces <= t.workspaces
    && (Of(t, p).Up? && Armed(Of(t, p).phase) ==>
          || (Of(s, p).Up? && Armed(Of(s, p).phase) && ArmedJob(Of(s, p).phase) == ArmedJob(Of(t, p).phase))
          || ArmedJob(Of(t, p).phase) !in s.workspaces)
    && (t.runs == s.runs
        || (Of(s, p).Up? && Of(s, p).phase.Prepared? && t.runs == s.runs + [ArmedJob(Of(s, p).phase)]))
    && (t.replies == s.replies
        || (|t.replies| == |s.replies| + 1 && t.replies[..|s.replies|] == s.replies
            && ReplyOk(t.log, t.replies[|s.replies|])))
  }

  lemma OthersStayOk(s: State, t: State, p: nat, q: nat)
    requires Inv(s) && Moves(s, t, p) && p != q
    ensures ProcessOk(t, q)
  {
    assert ProcessOk(s, p) && ProcessOk(s, q) && Exclusive(s, p, q);
    assert Of(t, q) == Of(s, q);
    if Of(s, q).Up? {
      forall j | j in Of(s, q).jobs ensures Backed(t.log, j, Of(s, q).jobs[j]) {
        assert Backed(s.log, j, Of(s, q).jobs[j]);
      }
    }
  }

  lemma StaysExclusive(s: State, t: State, p: nat, q: nat)
    requires Inv(s) && Moves(s, t, p) && p != q
    ensures Exclusive(t, p, q) && Exclusive(t, q, p)
  {
    assert ProcessOk(s, q) && Exclusive(s, p, q);
    assert Of(t, q) == Of(s, q);
  }

  lemma MovesKeepInv(s: State, t: State, p: nat)
    requires Inv(s) && Moves(s, t, p) && LogOk(t.log) && ProcessOk(t, p)
    ensures Inv(t)
  {
    assert ProcessOk(s, p);
    forall q {:trigger ProcessOk(t, q)} ensures ProcessOk(t, q) {
      if q != p { OthersStayOk(s, t, p, q); }
    }
    forall q, r {:trigger Exclusive(t, q, r)} ensures Exclusive(t, q, r) {
      if q == p && r != p { StaysExclusive(s, t, p, r); }
      if r == p && q != p { StaysExclusive(s, t, p, q); }
      if q != p && r != p {
        assert Of(t, q) == Of(s, q) && Of(t, r) == Of(s, r) && Exclusive(s, q, r);
      }
    }
    forall i | 0 <= i < |t.replies| ensures ReplyOk(t.log, t.replies[i]) {
      if i < |s.replies| { assert t.replies[i] == t.replies[..|s.replies|][i]; }
    }
    RunsStayDistinct(s, t, p);
  }

  lemma RunsStayDistinct(s: State, t: State, p: nat)
    requires ProcessOk(s, p) && Distinct(s.runs) && SetOf(s.runs) <= s.workspaces && Moves(s, t, p)
    ensures Distinct(t.runs) && SetOf(t.runs) <= t.workspaces
  {
    if t.runs != s.runs { SetOfAppend(s.runs, ArmedJob(Of(s, p).phase)); }
  }

  lemma JobsStayBacked(log: Log, longer: Log, jobs: Jobs)
    requires Grows(log, longer) && JobsBacked(log, jobs)
    ensures JobsBacked(longer, jobs)
  {
    forall j | j in jobs ensures Backed(longer, j, jobs[j]) {
      assert Backed(log, j, jobs[j]);
    }
  }

  lemma ScanKeeps(s: State, step: Step, jobs: Jobs, at: Phase)
    requires Inv(s) && Of(s, step.p) == Up(jobs, at) && step.Scan?
    ensures Inv(NextUp(s, step, jobs, at))
  {
    assert ProcessOk(s, step.p);
    MovesKeepInv(s, NextUp(s, step, jobs, at), step.p);
  }

  lemma ReserveKeeps(s: State, step: Step, jobs: Jobs, at: Phase)
    requires Inv(s) && Of(s, step.p) == Up(jobs, at) && step.Reserve?
    ensures Inv(NextUp(s, step, jobs, at))
  {
    assert ProcessOk(s, step.p);
    if at.Asking? && Append(s.log, Reserved(at.requested)).Some? {
      ReserveOk(s.log, at.requested);
      JobsStayBacked(s.log, Append(s.log, Reserved(at.requested)).value, jobs);
    }
    MovesKeepInv(s, NextUp(s, step, jobs, at), step.p);
  }

  lemma PrepareKeeps(s: State, step: Step, jobs: Jobs, at: Phase)
    requires Inv(s) && Of(s, step.p) == Up(jobs, at) && step.Prepare?
    ensures Inv(NextUp(s, step, jobs, at))
  {
    assert ProcessOk(s, step.p);
    if at.Holding? {
      assert EntryOk(s.log, Reserved(at.reservation));
      var j := at.reservation.jobId;
      assert j in jobs ==> Backed(s.log, j, jobs[j]);
      assert j !in s.workspaces ==> j !in SetOf(s.runs);
    }
    MovesKeepInv(s, NextUp(s, step, jobs, at), step.p);
  }

  lemma StartKeeps(s: State, step: Step, jobs: Jobs, at: Phase)
    requires Inv(s) && Of(s, step.p) == Up(jobs, at) && step.Start?
    ensures Inv(NextUp(s, step, jobs, at))
  {
    assert ProcessOk(s, step.p);
    if at.Prepared? {
      NoteOk(s.log, "harness.started:" + at.reservation.key, "", jobs, step.rest);
      JobsStayBacked(s.log, NextUp(s, step, jobs, at).log, jobs);
    }
    MovesKeepInv(s, NextUp(s, step, jobs, at), step.p);
  }

  lemma ExecuteKeeps(s: State, step: Step, jobs: Jobs, at: Phase)
    requires Inv(s) && Of(s, step.p) == Up(jobs, at) && (step.Execute? || step.ExecuteFails?)
    ensures Inv(NextUp(s, step, jobs, at))
  {
    assert ProcessOk(s, step.p);
    if at.Started? && step.ExecuteFails? {
      NoteOk(s.log, "harness.failed:" + at.reservation.key, "", jobs, step.rest);
      JobsStayBacked(s.log, NextUp(s, step, jobs, at).log, jobs);
    }
    MovesKeepInv(s, NextUp(s, step, jobs, at), step.p);
  }

  lemma AcceptedOk(s: State, step: Step, jobs: Jobs, at: Phase)
    requires LogOk(s.log) && ProcessOk(s, step.p) && Of(s, step.p) == Up(jobs, at) && step.Accept?
    ensures var t := NextUp(s, step, jobs, at); LogOk(t.log) && Grows(s.log, t.log) && ProcessOk(t, step.p)
  {
    if at.Ran? {
      AcceptingOk(s.log, at.reservation, at.revision, step.current, at.responseRef);
      var a := Accepting(s.log, at.reservation.jobId, at.revision, step.current, at.responseRef);
      JobsStayBacked(s.log, a.log, jobs);
      var job := Job(at.reservation, at.binding, at.responseRef, at.usage, at.latencyMs);
      assert a.error == None ==> JobsBacked(a.log, jobs[at.reservation.jobId := job]);
    }
  }

  lemma AcceptKeeps(s: State, step: Step, jobs: Jobs, at: Phase)
    requires Inv(s) && Of(s, step.p) == Up(jobs, at) && step.Accept?
    ensures Inv(NextUp(s, step, jobs, at))
  {
    assert ProcessOk(s, step.p);
    AcceptedOk(s, step, jobs, at);
    MovesKeepInv(s, NextUp(s, step, jobs, at), step.p);
  }

  lemma FinishedLogOk(log: Log, job: Job, jobs: Jobs, rest: string)
    requires LogOk(log) && JobsBacked(log, jobs)
    requires Append(log, Saved("job.completed:" + job.reservation.key, jobs, rest)).Some?
    ensures var saved := Append(log, Saved("job.completed:" + job.reservation.key, jobs, rest)).value;
            var after := Note(saved, "harness.completed:" + job.reservation.key, job.responseRef, jobs, rest).0;
            LogOk(after) && Grows(log, after) && JobsBacked(after, jobs)
  {
    var e := Saved("job.completed:" + job.reservation.key, jobs, rest);
    AppendKeeps(log, e);
    JobsStayBacked(log, Append(log, e).value, jobs);
    AppendOk(log, e);
    var saved := Append(log, e).value;
    NoteOk(saved, "harness.completed:" + job.reservation.key, job.responseRef, jobs, rest);
    JobsStayBacked(log, Note(saved, "harness.completed:" + job.reservation.key, job.responseRef, jobs, rest).0, jobs);
  }

  lemma FinishKeeps(s: State, step: Step, jobs: Jobs, at: Phase)
    requires Inv(s) && Of(s, step.p) == Up(jobs, at) && step.Finish?
    ensures Inv(NextUp(s, step, jobs, at))
  {
    assert ProcessOk(s, step.p);
    if at.Finishing? {
      FinishedKeeps(s, step, jobs, at);
    } else {
      MovesKeepInv(s, s, step.p);
    }
  }

  lemma FinishedKeeps(s: State, step: Step, jobs: Jobs, at: Phase)
    requires Inv(s) && Of(s, step.p) == Up(jobs, at) && step.Finish? && at.Finishing?
    ensures Inv(NextUp(s, step, jobs, at))
  {
    assert ProcessOk(s, step.p);
    var t := NextUp(s, step, jobs, at);
    var r := at.job.reservation;
    var saved := Append(s.log, Saved("job.completed:" + r.key, jobs, step.rest));
    assert EntryOk(s.log, Reserved(r));
    if saved.Some? {
      FinishedLogOk(s.log, at.job, jobs, step.rest);
      assert Accepted(r.jobId, r.revision, at.job.responseRef) in t.log;
    }
    MovesKeepInv(s, t, step.p);
  }

  lemma OtherKeeps(s: State, step: Step, jobs: Jobs, at: Phase)
    requires Inv(s) && Of(s, step.p) == Up(jobs, at)
    requires step.Raise? || step.Checkpoint? || step.Crash? || step.Open?
    ensures Inv(NextUp(s, step, jobs, at))
  {
    assert ProcessOk(s, step.p);
    if step.Checkpoint? {
      NoteOk(s.log, step.name, step.content, jobs, step.rest);
      JobsStayBacked(s.log, NextUp(s, step, jobs, at).log, jobs);
    }
    MovesKeepInv(s, NextUp(s, step, jobs, at), step.p);
  }

  lemma StepKeeps(s: State, step: Step)
    requires Inv(s)
    ensures Inv(Next(s, step))
  {
    match Of(s, step.p)
    case Up(jobs, at) =>
      match step {
        case Scan(_, _, _) => ScanKeeps(s, step, jobs, at);
        case Reserve(_) => ReserveKeeps(s, step, jobs, at);
        case Prepare(_) => PrepareKeeps(s, step, jobs, at);
        case Start(_, _) => StartKeeps(s, step, jobs, at);
        case Execute(_, _, _, _, _) => ExecuteKeeps(s, step, jobs, at);
        case ExecuteFails(_, _) => ExecuteKeeps(s, step, jobs, at);
        case Accept(_, _) => AcceptKeeps(s, step, jobs, at);
        case Finish(_, _) => FinishKeeps(s, step, jobs, at);
        case _ => OtherKeeps(s, step, jobs, at);
      }
    case Down =>
      if step.Open? && LastJobs(s.log).Some? {
        LastJobsBacked(s.log, s.log);
        MovesKeepInv(s, Next(s, step), step.p);
      }
  }

  lemma {:induction false} EveryDispatchRun(steps: seq<Step>)
    ensures Inv(Run(START, steps))
  {
    if steps == [] {
      assert EntryOk(START.log, START.log[0]);
      forall p {:trigger ProcessOk(START, p)} ensures ProcessOk(START, p) {}
      forall p, q {:trigger Exclusive(START, p, q)} ensures Exclusive(START, p, q) {}
    } else {
      EveryDispatchRun(steps[..|steps| - 1]);
      StepKeeps(Run(START, steps[..|steps| - 1]), steps[|steps| - 1]);
    }
  }

  // ---------- usage over a run ----------

  ghost predicate JobsCharged(charges: Usage.Charges, jobs: Jobs) {
    forall j | j in jobs :: Usage.Recorded(charges, RequestOf(j, jobs[j]))
  }

  ghost predicate MadeFor(charges: Usage.Charges, id: Id)
    requires id in charges
  {
    exists r {:trigger Usage.ChargeOf(r)} :: Usage.Measurable(r) && r.dispatchId == id
        && charges[id] == Usage.ChargeOf(r)
  }

  ghost predicate Made(charges: Usage.Charges) {
    forall id | id in charges :: MadeFor(charges, id)
  }

  ghost predicate UsageAt(s: State, p: nat) {
    Of(s, p).Up? ==> JobsCharged(ChargesOf(s, p), Of(s, p).jobs) && Made(ChargesOf(s, p))
  }

  ghost predicate SavedMeasurable(log: Log) {
    forall e | e in log && e.Saved? :: JobsMeasurable(e.jobs)
  }

  /** Every live process has charged every job it remembers, with the usage the job's
      harness reported, and every checkpointed job could be charged again. */
  ghost predicate UsageInv(s: State) {
    SavedMeasurable(s.log) && forall p {:trigger UsageAt(s, p)} :: UsageAt(s, p)
  }

  lemma ChargingRecords(charges: Usage.Charges, r: Usage.Request)
    requires Made(charges) && Usage.Charging(charges, r).Some?
    ensures var after := Usage.Charging(charges, r).value;
            && Usage.Recorded(after, r) && Made(after)
            && forall q | Usage.Recorded(charges, q) :: Usage.Recorded(after, q)
  {
    var after := Usage.Charging(charges, r).value;
    if r.dispatchId in charges {
      assert MadeFor(charges, r.dispatchId);
      var q :| Usage.Measurable(q) && q.dispatchId == r.dispatchId && charges[r.dispatchId] == Usage.ChargeOf(q);
    } else {
      forall id | id in after ensures MadeFor(after, id) {
        if id != r.dispatchId {
          assert MadeFor(charges, id);
          var q :| Usage.Measurable(q) && q.dispatchId == id && charges[id] == Usage.ChargeOf(q);
          assert after[id] == Usage.ChargeOf(q);
        } else {
          assert after[id] == Usage.ChargeOf(r);
        }
      }
    }
  }

  lemma RechargedAt(jobs: Jobs, j: JobId)
    requires JobsMeasurable(jobs) && j in jobs
    ensures NameOf(j) in Recharged(jobs) && Recharged(jobs)[NameOf(j)] == ChargeFor(jobs, j)
  {
    NamesDiffer();
    var i :| i in jobs && NameOf(i) == NameOf(j) && Recharged(jobs)[NameOf(j)] == ChargeFor(jobs, i);
  }

  lemma RechargedRecords(jobs: Jobs)
    requires JobsMeasurable(jobs)
    ensures JobsCharged(Recharged(jobs), jobs)
  {
    forall j | j in jobs ensures Usage.Recorded(Recharged(jobs), RequestOf(j, jobs[j])) {
      RechargedAt(jobs, j);
    }
  }

  lemma RechargedIsCharged(jobs: Jobs)
    requires JobsMeasurable(jobs)
    ensures JobsCharged(Recharged(jobs), jobs) && Made(Recharged(jobs))
  {
    var charges := Recharged(jobs);
    RechargedRecords(jobs);
    forall id | id in charges ensures MadeFor(charges, id) {
      var j :| j in jobs && id == NameOf(j);
      assert charges[id] == Usage.ChargeOf(RequestOf(j, jobs[j]));
    }
  }

  /** Whatever order opening charges the jobs in, it ends with the same charges. */
  lemma AnyListingRecharges(jobs: Jobs, requests: seq<Usage.Request>)
    requires JobsMeasurable(jobs) && SetOf(requests) == set j | j in jobs :: RequestOf(j, jobs[j])
    ensures Usage.Chargeable(requests) && Usage.ChargedAll(map[], requests) == Recharged(jobs)
  {
    RechargedIsCharged(jobs);
    var charges := Recharged(jobs);
    forall r | r in requests ensures Usage.Recorded(charges, r) { assert r in SetOf(requests); }
    Usage.RebuildConserves(charges, requests);
    var rebuilt := Usage.ChargedAll(map[], requests);
    assert rebuilt.Keys == charges.Keys by {
      forall id | id in charges ensures id in rebuilt.Keys {
        var j :| j in jobs && id == NameOf(j);
        assert RequestOf(j, jobs[j]) in SetOf(requests);
      }
    }
  }

  /** A step's log beside what its process remembers. */
  ghost predicate SavesJobs(log: Log, after: Log, jobs: Jobs) {
    forall e | e in after && e.Saved? :: e in log || e.jobs == jobs
  }

  /** Nothing happens to any other process. */
  ghost predicate OthersStay(s: State, t: State, p: nat) {
    forall q {:trigger Of(t, q)} | q != p :: Of(t, q) == Of(s, q) && ChargesOf(t, q) == ChargesOf(s, q)
  }

  lemma UsageMoves(s: State, t: State, p: nat, jobs: Jobs)
    requires UsageInv(s) && SavesJobs(s.log, t.log, jobs) && JobsMeasurable(jobs) && UsageAt(t, p)
    requires OthersStay(s, t, p)
    ensures UsageInv(t)
  {
    forall q {:trigger UsageAt(t, q)} ensures UsageAt(t, q) {
      assert UsageAt(s, q);
      assert q != p ==> Of(t, q) == Of(s, q);
    }
  }

  lemma NoteSavesJobs(log: Log, name: string, content: string, jobs: Jobs, rest: string)
    ensures SavesJobs(log, Note(log, name, content, jobs, rest).0, jobs)
  {}

  lemma ChargedIsMeasurable(charges: Usage.Charges, jobs: Jobs)
    requires JobsCharged(charges, jobs)
    ensures JobsMeasurable(jobs)
  {
    forall j | j in jobs ensures Usage.Measurable(RequestOf(j, jobs[j])) {
      assert Usage.Recorded(charges, RequestOf(j, jobs[j]));
    }
  }

  lemma AcceptSaves(s: State, step: Step, jobs: Jobs, at: Phase)
    requires Of(s, step.p) == Up(jobs, at) && step.Accept? && at.Ran?
    ensures var t := NextUp(s, step, jobs, at);
            SavesJobs(s.log, t.log, jobs)
  {}

  lemma AcceptCharges(s: State, step: Step, jobs: Jobs, at: Phase)
    requires UsageAt(s, step.p) && Of(s, step.p) == Up(jobs, at) && step.Accept? && at.Ran?
    ensures UsageAt(NextUp(s, step, jobs, at), step.p)
  {
    var before := ChargesOf(s, step.p);
    var r := UsageOf(at.reservation.jobId, at.usage, at.latencyMs);
    var charged := Usage.Charging(before, r);
    if charged.Some? {
      ChargingRecords(before, r);
      StayCharged(before, charged.value, jobs);
      OneMoreCharged(charged.value, jobs, at.reservation.jobId,
        Job(at.reservation, at.binding, at.responseRef, at.usage, at.latencyMs));
    }
  }

  lemma StayCharged(before: Usage.Charges, after: Usage.Charges, jobs: Jobs)
    requires JobsCharged(before, jobs) && forall q | Usage.Recorded(before, q) :: Usage.Recorded(after, q)
    ensures JobsCharged(after, jobs)
  {
    forall j | j in jobs ensures Usage.Recorded(after, RequestOf(j, jobs[j])) {
      assert Usage.Recorded(before, RequestOf(j, jobs[j]));
    }
  }

  lemma OneMoreCharged(charges: Usage.Charges, jobs: Jobs, j: JobId, job: Job)
    requires JobsCharged(charges, jobs) && Usage.Recorded(charges, RequestOf(j, job))
    ensures JobsCharged(charges, jobs[j := job])
  {}

  lemma AcceptUsage(s: State, step: Step, jobs: Jobs, at: Phase)
    requires UsageInv(s) && Of(s, step.p) == Up(jobs, at) && step.Accept? && at.Ran?
    ensures UsageInv(NextUp(s, step, jobs, at))
  {
    assert UsageAt(s, step.p);
    ChargedIsMeasurable(ChargesOf(s, step.p), jobs);
    AcceptSaves(s, step, jobs, at);
    AcceptCharges(s, step, jobs, at);
    StepStays(s, step);
    UsageMoves(s, NextUp(s, step, jobs, at), step.p, jobs);
  }

  lemma OtherUsage(s: State, step: Step, jobs: Jobs, at: Phase)
    requires UsageInv(s) && Of(s, step.p) == Up(jobs, at) && !(step.Accept? && at.Ran?)
    ensures UsageInv(NextUp(s, step, jobs, at))
  {
    var p := step.p;
    assert UsageAt(s, p);
    ChargedIsMeasurable(ChargesOf(s, p), jobs);
    OtherSaves(s, step, jobs, at);
    OtherCharges(s, step, jobs, at);
    StepStays(s, step);
    UsageMoves(s, NextUp(s, step, jobs, at), p, jobs);
  }

  lemma OneStays(s: State, step: Step, jobs: Jobs, at: Phase, q: nat)
    requires q != step.p
    ensures Of(NextUp(s, step, jobs, at), q) == Of(s, q)
  {}

  lemma OneStaysCharged(s: State, step: Step, jobs: Jobs, at: Phase, q: nat)
    requires q != step.p
    ensures ChargesOf(NextUp(s, step, jobs, at), q) == ChargesOf(s, q)
  {
    if !step.Accept? || !at.Ran? { OtherKeepsJobs(s, step, jobs, at); }
  }

  lemma OtherStays(s: State, step: Step, q: nat)
    requires q != step.p
    ensures Of(Next(s, step), q) == Of(s, q) && ChargesOf(Next(s, step), q) == ChargesOf(s, q)
  {
    match Of(s, step.p)
    case Up(jobs, at) =>
      OneStays(s, step, jobs, at, q);
      OneStaysCharged(s, step, jobs, at, q);
    case Down =>
  }

  lemma StepStays(s: State, step: Step)
    ensures OthersStay(s, Next(s, step), step.p)
  {
    forall q {:trigger Of(Next(s, step), q)} | q != step.p
      ensures Of(Next(s, step), q) == Of(s, q) && ChargesOf(Next(s, step), q) == ChargesOf(s, q)
    {
      OtherStays(s, step, q);
    }
  }

  lemma OtherKeepsJobs(s: State, step: Step, jobs: Jobs, at: Phase)
    requires !(step.Accept? && at.Ran?)
    ensures var t := NextUp(s, step, jobs, at);
            t == s || t.processes == s.processes || t.processes == s.processes[step.p := Down]
            || (step.p in t.processes && t.processes[step.p].Up? && t.processes[step.p].jobs == jobs)
    ensures NextUp(s, step, jobs, at).charges == s.charges
  {
    if step.Scan? || step.Reserve? || step.Prepare? { AskingKeepsJobs(s, step, jobs, at); }
  }

  lemma AskingKeepsJobs(s: State, step: Step, jobs: Jobs, at: Phase)
    requires step.Scan? || step.Reserve? || step.Prepare?
    ensures var t := NextUp(s, step, jobs, at);
            && (t == s || (step.p in t.processes && t.processes[step.p].Up? && t.processes[step.p].jobs == jobs))
            && t.charges == s.charges
  {}

  lemma OtherCharges(s: State, step: Step, jobs: Jobs, at: Phase)
    requires UsageAt(s, step.p) && Of(s, step.p) == Up(jobs, at) && !(step.Accept? && at.Ran?)
    ensures UsageAt(NextUp(s, step, jobs, at), step.p)
  {
    OtherKeepsJobs(s, step, jobs, at);
    var t := NextUp(s, step, jobs, at);
    assert ChargesOf(t, step.p) == ChargesOf(s, step.p);
    assert Of(t, step.p).Up? ==> Of(t, step.p).jobs == jobs;
  }

  lemma OtherSaves(s: State, step: Step, jobs: Jobs, at: Phase)
    requires Of(s, step.p) == Up(jobs, at) && !(step.Accept? && at.Ran?)
    ensures var t := NextUp(s, step, jobs, at);
            SavesJobs(s.log, t.log, jobs)
  {
    match step
    case Start(_, rest) =>
      if at.Prepared? { NoteSavesJobs(s.log, "harness.started:" + at.reservation.key, "", jobs, rest); }
    case ExecuteFails(_, rest) =>
      if at.Started? { NoteSavesJobs(s.log, "harness.failed:" + at.reservation.key, "", jobs, rest); }
    case Finish(_, rest) =>
      if at.Finishing? {
        var key := at.job.reservation.key;
        var saved := Append(s.log, Saved("job.completed:" + key, jobs, rest));
        if saved.Some? { NoteSavesJobs(saved.value, "harness.completed:" + key, at.job.responseRef, jobs, rest); }
      }
    case Checkpoint(_, name, content, rest) => NoteSavesJobs(s.log, name, content, jobs, rest);
    case _ =>
  }

  lemma {:induction false} LastJobsMeasurable(log: Log, prefix: Log)
    requires SavedMeasurable(log) && prefix <= log && LastJobs(prefix).Some?
    ensures JobsMeasurable(LastJobs(prefix).value)
    decreases |prefix|
  {
    var last := prefix[|prefix| - 1];
    if last.Saved? {
      assert log[|prefix| - 1] == last;
    } else {
      LastJobsMeasurable(log, prefix[..|prefix| - 1]);
    }
  }

  lemma OpenUsage(s: State, step: Step)
    requires UsageInv(s) && Of(s, step.p).Down? && step.Open? && LastJobs(s.log).Some?
    ensures UsageInv(Next(s, step))
  {
    var jobs := LastJobs(s.log).value;
    LastJobsMeasurable(s.log, s.log);
    RechargedIsCharged(jobs);
    StepStays(s, step);
    assert ChargesOf(Next(s, step), step.p) == Recharged(jobs);
    UsageMoves(s, Next(s, step), step.p, jobs);
  }

  lemma UsageStep(s: State, step: Step)
    requires UsageInv(s)
    ensures UsageInv(Next(s, step))
  {
    match Of(s, step.p)
    case Up(jobs, at) =>
      if step.Accept? && at.Ran? { AcceptUsage(s, step, jobs, at); } else { OtherUsage(s, step, jobs, at); }
    case Down =>
      if step.Open? && LastJobs(s.log).Some? { OpenUsage(s, step); }
  }

  /** In every run a live process has charged each of its jobs once, as reported; so
      after it dies and opens again, its totals are those its checkpointed jobs had
      live, and less only by dispatches that never became jobs. */
  lemma {:induction false} EveryRunIsCharged(steps: seq<Step>)
    ensures UsageInv(Run(START, steps))
  {
    if steps == [] {
      forall p {:trigger UsageAt(START, p)} ensures UsageAt(START, p) {}
    } else {
      EveryRunIsCharged(steps[..|steps| - 1]);
      UsageStep(Run(START, steps[..|steps| - 1]), steps[|steps| - 1]);
    }
  }

  /** The jobs a process remembers, charged again in any order after it reopens, have
      the totals they had live. */
  lemma UsageSurvivesOpening(steps: seq<Step>, p: nat, jobs: Jobs)
    requires var s := Run(START, steps);
             Of(s, p).Up? && jobs.Keys <= Of(s, p).jobs.Keys && forall j | j in jobs :: jobs[j] == Of(s, p).jobs[j]
    ensures JobsMeasurable(jobs)
    ensures var live, again := ChargesOf(Run(START, steps), p), Recharged(jobs);
            && again.Keys <= live.Keys && (forall id | id in again :: again[id] == live[id])
            && Usage.Total(live, live.Keys) ==
               Usage.Total(again, again.Keys).Plus(Usage.Total(live, live.Keys - again.Keys))
  {
    EveryRunIsCharged(steps);
    var s := Run(START, steps);
    var live := ChargesOf(s, p);
    assert UsageAt(s, p);
    assert JobsCharged(live, jobs);
    ChargedIsMeasurable(live, jobs);
    var requests := Listing(jobs);
    AnyListingRecharges(jobs, requests);
    forall r | r in requests ensures Usage.Recorded(live, r) { assert r in SetOf(requests); }
    Usage.RebuildConserves(live, requests);
  }

  lemma {:induction false} Listing(jobs: Jobs) returns (requests: seq<Usage.Request>)
    ensures SetOf(requests) == set j | j in jobs :: RequestOf(j, jobs[j])
    decreases |jobs|
  {
    if jobs == map[] {
      requests := [];
    } else {
      var j :| j in jobs;
      var rest := Listing(jobs - {j});
      requests := rest + [RequestOf(j, jobs[j])];
      SetOfAppend(rest, RequestOf(j, jobs[j]));
      assert forall i | i in jobs && i != j :: i in jobs - {j} && (jobs - {j})[i] == jobs[i];
    }
  }

  // ---------- what a run promises ----------

  /** Past the launch of its harness, and without a result of its own in the log yet. */
  predicate Launched(at: Phase) {
    at.Started? || at.Ran?
  }

  ghost predicate LaunchedRan(s: State, p: nat) {
    Of(s, p).Up? && Launched(Of(s, p).phase) ==> Of(s, p).phase.reservation.jobId in s.runs
  }

  ghost predicate AcceptedRan(log: Log, runs: seq<JobId>) {
    forall e | e in log && e.Accepted? :: e.jobId in runs
  }

  ghost predicate RunsCounted(s: State) {
    AcceptedRan(s.log, s.runs) && forall p {:trigger LaunchedRan(s, p)} :: LaunchedRan(s, p)
  }

  lemma RunsGrow(s: State, step: Step, jobs: Jobs, at: Phase)
    ensures var t := NextUp(s, step, jobs, at);
            t.runs == s.runs || (step.Start? && at.Prepared? && t.runs == s.runs + [at.reservation.jobId])
  {}

  /** The longer log has no result that is not in the log or of the job. */
  ghost predicate AcceptsOnly(log: Log, longer: Log, j: Option<JobId>) {
    forall e | e in longer && e.Accepted? :: e in log || j == Some(e.jobId)
  }

  lemma NoteAcceptsNothing(log: Log, name: string, content: string, jobs: Jobs, rest: string)
    ensures AcceptsOnly(log, Note(log, name, content, jobs, rest).0, None)
  {}

  lemma FinishAcceptsNothing(s: State, step: Step, jobs: Jobs, at: Phase)
    requires step.Finish? && at.Finishing?
    ensures AcceptsOnly(s.log, NextUp(s, step, jobs, at).log, None)
  {
    var key := at.job.reservation.key;
    var saved := Append(s.log, Saved("job.completed:" + key, jobs, step.rest));
    if saved.Some? { NoteAcceptsNothing(saved.value, "harness.completed:" + key, at.job.responseRef, jobs, step.rest); }
  }

  lemma OnlyAcceptAccepts(s: State, step: Step, jobs: Jobs, at: Phase)
    ensures AcceptsOnly(s.log, NextUp(s, step, jobs, at).log, if at.Ran? then Some(at.reservation.jobId) else None)
  {
    match step
    case Start(_, rest) =>
      if at.Prepared? { NoteAcceptsNothing(s.log, "harness.started:" + at.reservation.key, "", jobs, rest); }
    case ExecuteFails(_, rest) =>
      if at.Started? { NoteAcceptsNothing(s.log, "harness.failed:" + at.reservation.key, "", jobs, rest); }
    case Finish(_, rest) => if at.Finishing? { FinishAcceptsNothing(s, step, jobs, at); }
    case Checkpoint(_, name, content, rest) => NoteAcceptsNothing(s.log, name, content, jobs, rest);
    case Scan(_, _, _) => AskingAcceptsNothing(s, step, jobs, at);
    case Reserve(_) => AskingAcceptsNothing(s, step, jobs, at);
    case Prepare(_) => AskingAcceptsNothing(s, step, jobs, at);
    case _ =>
  }

  lemma AskingAcceptsNothing(s: State, step: Step, jobs: Jobs, at: Phase)
    requires step.Scan? || step.Reserve? || step.Prepare?
    ensures AcceptsOnly(s.log, NextUp(s, step, jobs, at).log, None)
    ensures forall j :: AcceptsOnly(s.log, NextUp(s, step, jobs, at).log, Some(j))
  {}

  lemma OwnRunCounted(s: State, step: Step, jobs: Jobs, at: Phase)
    requires Of(s, step.p) == Up(jobs, at) && LaunchedRan(s, step.p)
    ensures LaunchedRan(NextUp(s, step, jobs, at), step.p)
  {}

  lemma UpRunsCounted(s: State, step: Step, jobs: Jobs, at: Phase)
    requires RunsCounted(s) && Of(s, step.p) == Up(jobs, at)
    ensures RunsCounted(NextUp(s, step, jobs, at))
  {
    var t := NextUp(s, step, jobs, at);
    RunsGrow(s, step, jobs, at);
    OnlyAcceptAccepts(s, step, jobs, at);
    assert LaunchedRan(s, step.p);
    OwnRunCounted(s, step, jobs, at);
    forall q {:trigger LaunchedRan(t, q)} ensures LaunchedRan(t, q) {
      assert LaunchedRan(s, q);
      if q != step.p { OneStays(s, step, jobs, at, q); }
    }
  }

  lemma {:induction false} EveryRunIsCounted(steps: seq<Step>)
    ensures RunsCounted(Run(START, steps))
  {
    if steps == [] {
      forall p {:trigger LaunchedRan(START, p)} ensures LaunchedRan(START, p) {}
    } else {
      EveryRunIsCounted(steps[..|steps| - 1]);
      var s, step := Run(START, steps[..|steps| - 1]), steps[|steps| - 1];
      match Of(s, step.p)
      case Up(jobs, at) => UpRunsCounted(s, step, jobs, at);
      case Down =>
        var t := Next(s, step);
        forall q {:trigger LaunchedRan(t, q)} ensures LaunchedRan(t, q) { assert LaunchedRan(s, q); }
    }
  }

  /** Whatever the crashes, failures and retries, no job's harness is launched twice,
      its process living to see it return or not; and every accepted result is that of
      a launched harness. */
  lemma HarnessRunsAtMostOnce(steps: seq<Step>)
    ensures Distinct(Run(START, steps).runs)
    ensures forall e | e in Run(START, steps).log && e.Accepted? :: e.jobId in Run(START, steps).runs
  {
    EveryDispatchRun(steps);
    EveryRunIsCounted(steps);
  }

  /** One reservation a key, and every caller granted the key holds that one. */
  lemma OneReservationPerKey(steps: seq<Step>, a: Reservation, b: Reservation)
    requires a.key == b.key
    requires Granted(a) in Run(START, steps).replies || Reserved(a) in Run(START, steps).log
    requires Granted(b) in Run(START, steps).replies || Reserved(b) in Run(START, steps).log
    ensures a == b && Reserved(a) in Run(START, steps).log
  {
    EveryDispatchRun(steps);
    var s := Run(START, steps);
    if Granted(a) in s.replies {
      var i :| 0 <= i < |s.replies| && s.replies[i] == Granted(a);
      assert ReplyOk(s.log, s.replies[i]);
    }
    if Granted(b) in s.replies {
      var i :| 0 <= i < |s.replies| && s.replies[i] == Granted(b);
      assert ReplyOk(s.log, s.replies[i]);
    }
    SameIdSameEntry(s.log, Reserved(a), Reserved(b));
  }

  /** One accepted result a job, at the revision of the job's reservation. */
  lemma OneAcceptedResult(steps: seq<Step>, j: JobId, revision: nat, ref: string, revision': nat, ref': string)
    requires Accepted(j, revision, ref) in Run(START, steps).log
    requires Accepted(j, revision', ref') in Run(START, steps).log
    ensures revision == revision' && ref == ref'
    ensures Find(Run(START, steps).log, j).Some? && Find(Run(START, steps).log, j).value.revision == revision
  {
    EveryDispatchRun(steps);
    var log := Run(START, steps).log;
    SameIdSameEntry(log, Accepted(j, revision, ref), Accepted(j, revision', ref'));
    assert EntryOk(log, Accepted(j, revision, ref));
    var r :| Reserved(r) in log && r.jobId == j && r.revision == revision;
    FindsTheReservation(log, r);
  }

  /** Every dispatch that returns for a key returns the same job and response. */
  lemma DispatchesAgree(steps: seq<Step>, key: string, j: JobId, ref: string, j': JobId, ref': string)
    requires Returned(key, j, ref) in Run(START, steps).replies
    requires Returned(key, j', ref') in Run(START, steps).replies
    ensures j == j' == JobOf(key) && ref == ref'
  {
    EveryDispatchRun(steps);
    var s := Run(START, steps);
    var i :| 0 <= i < |s.replies| && s.replies[i] == Returned(key, j, ref);
    var k :| 0 <= k < |s.replies| && s.replies[k] == Returned(key, j', ref');
    assert ReplyOk(s.log, s.replies[i]) && ReplyOk(s.log, s.replies[k]);
    var revision :| Accepted(j, revision, ref) in s.log;
    var revision' :| Accepted(j', revision', ref') in s.log;
    SameIdSameEntry(s.log, Accepted(j, revision, ref), Accepted(j', revision', ref'));
  }

  // ---------- what a crash costs ----------

  /** The phase is past the workspace of this job. */
  predicate Works(at: Phase, j: JobId) {
    match at
    case Prepared(r, _) => r.jobId == j
    case Started(r, _) => r.jobId == j
    case Ran(r, _, _, _, _, _) => r.jobId == j
    case Finishing(job) => job.reservation.jobId == j
    case _ => false
  }

  ghost predicate Forgets(s: State, p: nat, j: JobId) {
    Of(s, p).Up? ==> j !in Of(s, p).jobs && !Works(Of(s, p).phase, j)
  }

  /** The job has a workspace, and neither a live process nor the last checkpoint
      knows its result. */
  ghost predicate Stranded(s: State, j: JobId) {
    && j in s.workspaces
    && (LastJobs(s.log).Some? ==> j !in LastJobs(s.log).value)
    && forall p {:trigger Forgets(s, p, j)} :: Forgets(s, p, j)
  }

  lemma NoteKeepsStranded(log: Log, name: string, content: string, jobs: Jobs, rest: string, j: JobId)
    requires j !in jobs && (LastJobs(log).Some? ==> j !in LastJobs(log).value)
    ensures var after := LastJobs(Note(log, name, content, jobs, rest).0);
            after.Some? ==> j !in after.value
  {
    var noted := Append(log, Noted(name, content));
    if noted.Some? {
      assert noted.value != log ==> noted.value[..|noted.value| - 1] == log;
    }
  }

  ghost predicate QuietOn(s: State, t: State, j: JobId) {
    && s.replies <= t.replies
    && forall i | |s.replies| <= i < |t.replies| :: !(t.replies[i].Returned? && t.replies[i].jobId == j)
  }

  lemma LogStaysStranded(s: State, step: Step, jobs: Jobs, at: Phase, j: JobId)
    requires Stranded(s, j) && Of(s, step.p) == Up(jobs, at)
    ensures var after := LastJobs(NextUp(s, step, jobs, at).log);
            after.Some? ==> j !in after.value
  {
    assert Forgets(s, step.p, j);
    match step
    case Start(_, rest) =>
      if at.Prepared? { NoteKeepsStranded(s.log, "harness.started:" + at.reservation.key, "", jobs, rest, j); }
    case ExecuteFails(_, rest) =>
      if at.Started? { NoteKeepsStranded(s.log, "harness.failed:" + at.reservation.key, "", jobs, rest, j); }
    case Finish(_, rest) =>
      if at.Finishing? {
        var key := at.job.reservation.key;
        var saved := Append(s.log, Saved("job.completed:" + key, jobs, rest));
        if saved.Some? {
          NoteKeepsStranded(saved.value, "harness.completed:" + key, at.job.responseRef, jobs, rest, j);
        }
      }
    case Checkpoint(_, name, content, rest) =>
      NoteKeepsStranded(s.log, name, content, jobs, rest, j);
    case Reserve(_) =>
      if at.Asking? && Append(s.log, Reserved(at.requested)).Some? { AppendedLast(s.log, Reserved(at.requested)); }
    case Accept(_, current) =>
      if at.Ran? { AcceptingLast(s.log, at.reservation.jobId, at.revision, current, at.responseRef); }
    case _ =>
  }

  lemma AppendedLast(log: Log, e: Entry)
    requires Append(log, e).Some? && !e.Saved?
    ensures LastJobs(Append(log, e).value) == LastJobs(log)
  {
    assert (log + [e])[..|log|] == log;
  }

  lemma AcceptingLast(log: Log, j: JobId, response: nat, current: nat, ref: string)
    ensures LastJobs(Accepting(log, j, response, current, ref).log) == LastJobs(log)
  {
    if Append(log, Stale(j, response, current, ref)).Some? { AppendedLast(log, Stale(j, response, current, ref)); }
    if Append(log, Accepted(j, response, ref)).Some? { AppendedLast(log, Accepted(j, response, ref)); }
  }

  lemma OthersStillForget(s: State, step: Step, q: nat, j: JobId)
    requires Forgets(s, q, j) && q != step.p
    ensures Forgets(Next(s, step), q, j)
  {
    StepStays(s, step);
    assert Of(Next(s, step), q) == Of(s, q);
  }

  lemma StepStillForgets(s: State, step: Step, j: JobId)
    requires Stranded(s, j)
    ensures Forgets(Next(s, step), step.p, j)
  {
    assert Forgets(s, step.p, j);
  }

  lemma AllStillForget(s: State, step: Step, j: JobId)
    requires Stranded(s, j)
    ensures forall q {:trigger Forgets(Next(s, step), q, j)} :: Forgets(Next(s, step), q, j)
  {
    StepStillForgets(s, step, j);
    forall q {:trigger Forgets(Next(s, step), q, j)} ensures Forgets(Next(s, step), q, j) {
      assert Forgets(s, q, j);
      if q != step.p { OthersStillForget(s, step, q, j); }
    }
  }

  lemma StepStaysQuiet(s: State, step: Step, j: JobId)
    requires Forgets(s, step.p, j)
    ensures QuietOn(s, Next(s, step), j)
  {}

  lemma StepStaysStranded(s: State, step: Step, j: JobId)
    requires Stranded(s, j)
    ensures Stranded(Next(s, step), j) && QuietOn(s, Next(s, step), j)
  {
    var t := Next(s, step);
    assert Forgets(s, step.p, j);
    if Of(s, step.p).Up? { LogStaysStranded(s, step, Of(s, step.p).jobs, Of(s, step.p).phase, j); }
    AllStillForget(s, step, j);
    StepStaysQuiet(s, step, j);
  }

  lemma {:induction false} StrandedForGood(s: State, steps: seq<Step>, j: JobId)
    requires Stranded(s, j)
    ensures Stranded(Run(s, steps), j) && QuietOn(s, Run(s, steps), j)
  {
    if steps != [] {
      StrandedForGood(s, steps[..|steps| - 1], j);
      StepStaysStranded(Run(s, steps[..|steps| - 1]), steps[|steps| - 1], j);
    }
  }

  ghost predicate CanReturn(s: State, j: JobId) {
    exists steps :: !QuietOn(s, Run(s, steps), j)
  }

  lemma CheckpointedJobReturns(s: State, j: JobId)
    requires Inv(s) && UsageInv(s) && Of(s, 0).Down? && LastJobs(s.log).Some? && j in LastJobs(s.log).value
    ensures CanReturn(s, j)
  {
    LastJobsBacked(s.log, s.log);
    LastJobsMeasurable(s.log, s.log);
    var jobs := LastJobs(s.log).value;
    var r := jobs[j].reservation;
    assert Backed(s.log, j, jobs[j]);
    assert EntryOk(s.log, Reserved(r));
    var found := ReservedFor(s.log, r.key);
    assert found.Some? by { assert IdOf(Reserved(r)) == DispatchId(r.key); }
    SameIdSameEntry(s.log, Reserved(r), Reserved(found.value));
    ReturnsInThree(s, j, r, jobs);
  }

  lemma ReturnsInThree(s: State, j: JobId, r: Reservation, jobs: Jobs)
    requires Of(s, 0).Down? && LastJobs(s.log) == Some(jobs) && j in jobs && JobsMeasurable(jobs)
    requires r.jobId == j == JobOf(r.key) && ReservedFor(s.log, r.key) == Some(r)
    ensures CanReturn(s, j)
  {
    var open, scan, prepare := Open(0), Scan(0, r, jobs[j].binding), Prepare(0);
    var s1 := Next(s, open);
    assert Of(s1, 0) == Up(jobs, Ready) && s1.log == s.log && s1.replies == s.replies;
    var s2 := Next(s1, scan);
    assert Of(s2, 0) == Up(jobs, Holding(r, jobs[j].binding)) && s2.replies == s.replies + [Granted(r)];
    var s3 := Next(s2, prepare);
    assert s3.replies == s2.replies + [Returned(r.key, j, jobs[j].responseRef)];
    assert !QuietOn(s, s3, j) by { assert s3.replies[|s.replies| + 1].Returned?; }
    RunThree(s, open, scan, prepare);
  }

  lemma RunThree(s: State, a: Step, b: Step, c: Step)
    ensures Run(s, [] + [a] + [b] + [c]) == Next(Next(Next(s, a), b), c)
  {
    RunOne(s, [], a);
    RunOne(s, [] + [a], b);
    RunOne(s, [] + [a] + [b], c);
  }

  lemma RunOne(s: State, steps: seq<Step>, step: Step)
    ensures Run(s, steps + [step]) == Next(Run(s, steps), step)
  {
    assert (steps + [step])[..|steps|] == steps;
  }

  /** After a crash of every process, a job that got as far as its workspace can
      be returned again exactly if the last checkpoint holds it. */
  lemma RedispatchAfterCrash(s: State, j: JobId)
    requires Inv(s) && UsageInv(s) && LastJobs(s.log).Some? && j in s.workspaces
    requires forall p {:trigger Of(s, p)} :: Of(s, p).Down?
    ensures CanReturn(s, j) <==> j in LastJobs(s.log).value
  {
    if j in LastJobs(s.log).value {
      CheckpointedJobReturns(s, j);
    } else {
      forall p {:trigger Forgets(s, p, j)} ensures Forgets(s, p, j) {}
      forall steps ensures QuietOn(s, Run(s, steps), j) {
        StrandedForGood(s, steps, j);
      }
    }
  }

  /** A dispatch whose process dies beside its launched harness. */
  function Stranding(r: Reservation, binding: string, rest: string): seq<Step> {
    [Open(0), Scan(0, r, binding), Reserve(0), Prepare(0), Start(0, rest), Crash(0)]
  }

  /** One process, in this phase, over this log, with no result yet. */
  predicate Alone(s: State, at: Phase, log: Log, workspaces: set<JobId>) {
    && s.processes.Keys == {0} && Of(s, 0) == Up(map[], at) && s.log == log && s.workspaces == workspaces
  }

  lemma ScansFree(s: State, r: Reservation, binding: string)
    requires Alone(s, Ready, START.log, {}) && r.jobId == JobOf(r.key)
    ensures Alone(Next(s, Scan(0, r, binding)), Asking(r, binding), START.log, {})
  {
    assert ReservedFor(START.log, r.key).None?;
  }

  lemma ReservesFree(s: State, r: Reservation, binding: string)
    requires Alone(s, Asking(r, binding), START.log, {})
    ensures Alone(Next(s, Reserve(0)), Holding(r, binding), START.log + [Reserved(r)], {})
  {
    assert Reserved(r) !in START.log && !Uses(START.log, IdOf(Reserved(r)));
  }

  lemma PreparesFree(s: State, r: Reservation, binding: string)
    requires Alone(s, Holding(r, binding), START.log + [Reserved(r)], {})
    ensures Alone(Next(s, Prepare(0)), Prepared(r, binding), START.log + [Reserved(r)], {r.jobId})
  {}

  lemma NotesStart(r: Reservation, rest: string)
    ensures var name := "harness.started:" + r.key;
            Note(START.log + [Reserved(r)], name, "", map[], rest) ==
            (START.log + [Reserved(r)] + [Noted(name, "")] + [Saved(name, map[], rest)], true)
  {
    var name := "harness.started:" + r.key;
    var log := START.log + [Reserved(r)];
    assert name[0] != "run.created"[0];
    assert !Uses(log, NotedId(name)) && !Uses(log + [Noted(name, "")], SavedId(name));
  }

  lemma StartsFree(s: State, r: Reservation, binding: string, rest: string)
    requires Alone(s, Prepared(r, binding), START.log + [Reserved(r)], {r.jobId})
    ensures var t := Next(s, Start(0, rest));
            && t.processes.Keys == {0} && Of(t, 0) == Up(map[], Started(r, binding)) && t.workspaces == {r.jobId}
            && r.jobId in t.runs && LastJobs(t.log) == Some(map[])
  {
    NotesStart(r, rest);
  }

  lemma Launches(r: Reservation, binding: string, rest: string)
    requires r.jobId == JobOf(r.key)
    ensures var t := Run(START, Stranding(r, binding, rest)[..5]);
            && t.processes.Keys == {0} && t.workspaces == {r.jobId} && r.jobId in t.runs
            && LastJobs(t.log) == Some(map[])
  {
    var steps := Stranding(r, binding, rest);
    assert steps[..5] == [] + [steps[0]] + [steps[1]] + [steps[2]] + [steps[3]] + [steps[4]];
    RunOne(START, [], steps[0]);
    RunOne(START, [] + [steps[0]], steps[1]);
    RunOne(START, [] + [steps[0]] + [steps[1]], steps[2]);
    RunOne(START, [] + [steps[0]] + [steps[1]] + [steps[2]], steps[3]);
    RunOne(START, [] + [steps[0]] + [steps[1]] + [steps[2]] + [steps[3]], steps[4]);
    var s1 := Next(START, steps[0]);
    assert Alone(s1, Ready, START.log, {});
    ScansFree(s1, r, binding);
    var s2 := Next(s1, steps[1]);
    ReservesFree(s2, r, binding);
    var s3 := Next(s2, steps[2]);
    PreparesFree(s3, r, binding);
    StartsFree(Next(s3, steps[3]), r, binding, rest);
  }

  /** So a new run strands any job it is asked for: its harness was launched, no run
      from there launches it again, and none returns it. */
  lemma LaunchedJobStrands(r: Reservation, binding: string, rest: string)
    requires r.jobId == JobOf(r.key)
    ensures var s := Run(START, Stranding(r, binding, rest));
            && r.jobId in s.runs && LastJobs(s.log).Some? && r.jobId !in LastJobs(s.log).value
            && !CanReturn(s, r.jobId)
  {
    var steps := Stranding(r, binding, rest);
    Launches(r, binding, rest);
    assert steps == steps[..5] + [Crash(0)];
    RunOne(START, steps[..5], Crash(0));
    var s := Run(START, steps);
    EveryDispatchRun(steps);
    EveryRunIsCharged(steps);
    forall p {:trigger Of(s, p)} ensures Of(s, p).Down? {}
    RedispatchAfterCrash(s, r.jobId);
  }
}
