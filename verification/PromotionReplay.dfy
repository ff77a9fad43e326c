/** The snapshot that replaying the events gives, against the pointer itself. */
module PromotionReplay {
  import opened Basics
  import opened Workflow
  import opened Promotion
  import opened PromotionSteps

  /** The events agree with the pointer, once something was promoted. */
  predicate Agrees(s: State) {
    s.chain == [] || Replayed(s.log) == s.files.pointer
  }

  /** Between its swap and its event. */
  predicate Busy(s: State, p: nat) {
    Of(s, p).Up? && Of(s, p).promoter.Swapped?
  }

  /** No promotion is half done. */
  ghost predicate Quiet(s: State) {
    forall p {:trigger Busy(s, p)} :: !Busy(s, p)
  }

  /** About to swap, and about to succeed. */
  predicate Ripe(s: State, p: nat, j: Job) {
    && Of(s, p).Up? && Of(s, p).promoter == Checked(j) && j.id in Of(s, p).memory.jobs
    && Truthy(j.candidate) && j.candidate.value in s.files.stored && Current(s.files) == Some(j.base)
  }

  lemma RipeSwaps(s: State, p: nat, j: Job)
    requires Ripe(s, p, j)
    ensures var t := Next(s, Swap(p));
            && Of(t, p) == Up(Paid(Of(s, p).memory, j.id), Swapped(j)) && OthersStay(s, t, p)
            && t.files == s.files.(pointer := j.candidate) && t.log == s.log && t.saved == s.saved
            && t.chain == s.chain + [Exchange(Of(s, p).memory.graph, j)]
  {}

  lemma SwappedRecords(s: State, p: nat, j: Job)
    requires Of(s, p).Up? && Of(s, p).promoter == Swapped(j) && j.candidate.Some?
    ensures var t := Next(s, Record(p));
            && Of(t, p) == Up(Of(s, p).memory, Idle) && OthersStay(s, t, p)
            && t.files == s.files && t.chain == s.chain && t.saved == s.saved
            && t.log == Report(s.log, j.id, j.candidate.value, j.base)
  {}

  /** Replay sees the pointer at once after a swap that is recorded before anyone
      else swaps, exactly if the job was not promoted before or changes nothing. */
  lemma PromotionAgrees(s: State, p: nat, j: Job)
    requires Agrees(s) && (s.chain == [] ==> forall e | e in s.log :: !e.Promoted?) && Ripe(s, p, j)
    ensures Agrees(Next(Next(s, Swap(p)), Record(p))) <==> !Reported(s.log, j.id) || j.candidate == Some(j.base)
  {
    RipeSwaps(s, p, j);
    SwappedRecords(Next(s, Swap(p)), p, j);
    NewReportIsSeen(s.log, j.id, j.candidate.value, j.base);
  }

  // ---------- serial runs ----------

  /** A step that neither overlaps a promotion with another, nor promotes a job
      again, nor loses a promoter between its swap and its event. */
  ghost predicate Serial(s: State, step: Step) {
    match step
    case Swap(p) =>
      && Quiet(s)
      && (Of(s, p).Up? && Of(s, p).promoter.Checked? ==> !Reported(s.log, Of(s, p).promoter.job.id))
    case Crash(p) => !Busy(s, p)
    case _ => true
  }

  ghost predicate SerialRun(s: State, steps: seq<Step>) {
    forall n | 0 <= n < |steps| :: Serial(After(s, steps[..n]), steps[n])
  }

  /** What is true of a process that is between its swap and its event: its job is
      the last of the chain and the events stop just before it. */
  ghost predicate PendingAt(s: State, p: nat) {
    Busy(s, p) ==>
      && s.chain != [] && Of(s, p).promoter.job.candidate.Some?
      && Of(s, p).promoter.job.candidate == s.files.pointer && !Reported(s.log, Of(s, p).promoter.job.id)
  }

  /** At most one process is between its swap and its event. */
  ghost predicate Pending(s: State) {
    && (forall p {:trigger PendingAt(s, p)} :: PendingAt(s, p))
    && (forall p, q {:trigger Busy(s, p), Busy(s, q)} :: Busy(s, p) && Busy(s, q) ==> p == q)
    && (Quiet(s) ==> Agrees(s))
  }

  /** A step that swaps nothing and records nothing. */
  lemma QuietStep(s: State, step: Step)
    requires !step.Swap? && !step.Record?
    ensures var t := Next(s, step);
            && t.chain == s.chain && t.files.pointer == s.files.pointer
            && (Busy(t, step.p) ==> Of(t, step.p) == Of(s, step.p))
            && (Busy(s, step.p) && !step.Crash? ==> Busy(t, step.p))
            && (t.log == s.log || (step.Unrelated? && t.log == s.log + [Noted(step.name)]))
  {}

  lemma QuietStaysPending(s: State, step: Step)
    requires Pending(s) && Serial(s, step) && !step.Swap? && !step.Record?
    ensures Pending(Next(s, step))
  {
    var t := Next(s, step);
    QuietStep(s, step);
    NextIsShaped(s, step);
    if step.Unrelated? { NotesChangeNothing(s.log, step.name); }
    forall q {:trigger Busy(t, q)} ensures Busy(t, q) <==> Busy(s, q) {
      if q != step.p { assert Of(t, q) == Of(s, q); }
    }
    forall q {:trigger PendingAt(t, q)} ensures PendingAt(t, q) {
      assert PendingAt(s, q);
      if q != step.p { assert Of(t, q) == Of(s, q); }
    }
    if Quiet(t) {
      forall q {:trigger Busy(s, q)} ensures !Busy(s, q) { assert Busy(t, q) <==> Busy(s, q); }
    }
  }

  lemma SwapOrNot(s: State, p: nat)
    ensures var t := Next(s, Swap(p));
            || (t.chain == s.chain && t.files == s.files && t.log == s.log && (!Busy(s, p) ==> !Busy(t, p)))
            || (Of(s, p).Up? && Of(s, p).promoter.Checked? && Busy(t, p) && t.chain != [] && t.log == s.log
                && Of(t, p).promoter.job == Of(s, p).promoter.job && Of(t, p).promoter.job.candidate.Some?
                && t.files.pointer == Of(t, p).promoter.job.candidate)
  {}

  lemma SwapStaysPending(s: State, p: nat)
    requires Pending(s) && Serial(s, Swap(p))
    ensures Pending(Next(s, Swap(p)))
  {
    var t := Next(s, Swap(p));
    NextIsShaped(s, Swap(p));
    SwapOrNot(s, p);
    assert !Busy(s, p);
    forall q {:trigger Busy(t, q)} ensures Busy(t, q) ==> q == p {
      if q != p { assert Of(t, q) == Of(s, q) && !Busy(s, q); }
    }
    forall q {:trigger PendingAt(t, q)} ensures PendingAt(t, q) {
      assert Busy(t, q) ==> q == p;
    }
  }

  lemma RecordStaysPending(s: State, p: nat)
    requires Pending(s)
    ensures Pending(Next(s, Record(p)))
  {
    var t := Next(s, Record(p));
    NextIsShaped(s, Record(p));
    assert PendingAt(s, p) && !Busy(t, p);
    NotesChangeNothing(s.log, "promotion.conflict");
    forall q {:trigger Busy(t, q)} ensures Busy(t, q) ==> q != p && Busy(s, q) && Of(t, q) == Of(s, q) {
      if q != p { assert Of(t, q) == Of(s, q); }
    }
    if Busy(s, p) {
      var j := Of(s, p).promoter.job;
      SwappedRecords(s, p, j);
      NewReportIsSeen(s.log, j.id, j.candidate.value, j.base);
      forall q {:trigger PendingAt(t, q)} ensures PendingAt(t, q) { assert Busy(t, q) ==> Busy(s, q) && q != p; }
    } else {
      if Quiet(t) {
        forall q {:trigger Busy(s, q)} ensures !Busy(s, q) { if q != p { assert Of(t, q) == Of(s, q) && !Busy(t, q); } }
      }
      forall q {:trigger PendingAt(t, q)} ensures PendingAt(t, q) { assert PendingAt(s, q); }
    }
  }

  lemma {:induction false} SerialRunStaysPending(s0: State, steps: seq<Step>)
    requires Pending(s0) && SerialRun(s0, steps)
    ensures Pending(After(s0, steps))
  {
    if steps != [] {
      var n := |steps| - 1;
      forall k | 0 <= k < n ensures Serial(After(s0, steps[..n][..k]), steps[..n][k]) {
        assert steps[..n][..k] == steps[..k];
      }
      SerialRunStaysPending(s0, steps[..n]);
      var s, step := After(s0, steps[..n]), steps[n];
      assert Serial(s, step);
      match step
      case Swap(p) => SwapStaysPending(s, p);
      case Record(p) => RecordStaysPending(s, p);
      case _ => QuietStaysPending(s, step);
    }
  }

  /** In serial runs the replayed snapshot is the pointer, from the first promotion
      on, whenever no promotion is half done. */
  lemma SerialRunsReplay(source: Snapshot, runId: string, def: Definition, roles: set<string>, steps: seq<Step>)
    requires SerialRun(Start(source, runId, def, roles), steps)
    requires Quiet(After(Start(source, runId, def, roles), steps))
    ensures var s := After(Start(source, runId, def, roles), steps);
            s.chain != [] ==> Replayed(s.log) == s.files.pointer
  {
    var s0 := Start(source, runId, def, roles);
    forall p {:trigger PendingAt(s0, p)} ensures PendingAt(s0, p) {}
    SerialRunStaysPending(s0, steps);
  }
}
