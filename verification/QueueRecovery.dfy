/** The log on disk always says what the queue in memory says, whenever the process may end. */
module QueueRecovery {
  import opened Common
  import opened InboundQueue
  import opened Runs
  import opened QueueProcess

  /** The queue is still reading its log, or writing it back for the first time. */
  predicate Initializing(s: State) { s.chain != [] && s.chain[0].Initialize? }

  /** What the log on disk says, compared with the snapshot in memory. */
  ghost predicate Matches(s: State) {
    if Initializing(s) then
      if s.progress.Waiting? then s.jobs == [] else s.jobs == Pruned(Recovered(Folded(s.log)))
    else if s.progress.Persisted? then s.chain != [] && Folded(s.log) == Applied(s.jobs, s.chain[0].event)
    else Folded(s.log) == s.jobs
  }

  ghost predicate ChainShape(s: State) {
    && (forall k :: 0 < k < |s.chain| ==> s.chain[k].Append?)
    && (forall k :: 0 <= k < |s.chain| && s.chain[k].Append? && s.chain[k].event.Created? ==> s.chain[k].event.job.status == Pending)
    && (!s.progress.Waiting? ==> s.chain != [])
    && (s.loaded <==> !(Initializing(s) && s.progress.Waiting?))
    && (s.progress.Persisted? ==> !Initializing(s))
  }

  ghost predicate Consistent(s: State) {
    && ChainShape(s)
    && Unique(s.jobs)
    && |Completed(s.jobs)| <= MAX_COMPLETED_JOBS
    && (s.progress.Written? ==> s.tmp == Some(Lines(s.jobs)))
    && Matches(s)
  }

  // ---------------------------------------------------------------- the number of finished jobs

  lemma {:induction false} CompletedUpdate(jobs: seq<Job>, k: nat, job: Job)
    requires k < |jobs| && !Done(job)
    ensures |Completed(jobs[k := job])| <= |Completed(jobs)|
  {
    if k == 0 {
    } else {
      assert jobs[k := job][1..] == jobs[1..][k - 1 := job];
      CompletedUpdate(jobs[1..], k - 1, job);
    }
  }

  lemma {:induction false} CompletedSnoc(jobs: seq<Job>, job: Job)
    requires !Done(job)
    ensures |Completed(jobs + [job])| <= |Completed(jobs)|
  {
    if jobs == [] {
    } else {
      assert (jobs + [job])[1..] == jobs[1..] + [job];
      CompletedSnoc(jobs[1..], job);
    }
  }

  /** With jobs created as pending no event leaves more finished jobs than the limit. */
  lemma AppliedWithinLimit(jobs: seq<Job>, event: Event)
    requires Unique(jobs) && |Completed(jobs)| <= MAX_COMPLETED_JOBS
    requires event.Created? ==> event.job.status == Pending
    ensures |Completed(Applied(jobs, event))| <= MAX_COMPLETED_JOBS
  {
    if event.Created? {
      var k := Position(jobs, event.job.jobId);
      if k < |jobs| { CompletedUpdate(jobs, k, event.job); } else { CompletedSnoc(jobs, event.job); }
    } else {
      var k := Position(jobs, event.jobId);
      if Finishes(event) {
        PruneCount(if k < |jobs| then jobs[k := Change(jobs[k], event)] else jobs);
      } else if k < |jobs| {
        CompletedUpdate(jobs, k, Change(jobs[k], event));
      }
    }
  }

  lemma {:induction false} RecoveredCompleted(jobs: seq<Job>)
    ensures Completed(Recovered(jobs)) == Completed(jobs)
  {
    if jobs == [] {
    } else {
      assert Recovered(jobs)[1..] == Recovered(jobs[1..]);
      RecoveredCompleted(jobs[1..]);
    }
  }

  lemma RecoveredIdle(jobs: seq<Job>)
    requires forall x :: x in jobs ==> x.status != Active
    ensures Recovered(jobs) == jobs
  {
  }

  // ---------------------------------------------------------------- every step keeps it

  lemma InitializeKeeps(s: State)
    requires Consistent(s) && Initializing(s) && s.progress.Waiting?
    ensures Consistent(WriteStep(s))
  {
    PruneCount(Recovered(Folded(s.log)));
  }

  lemma PersistKeeps(s: State)
    requires Consistent(s) && s.chain != [] && s.chain[0].Append? && s.progress.Waiting?
    ensures Consistent(WriteStep(s))
  {
    FoldedSnoc(s.log, s.chain[0].event);
  }

  /** Ending the write at the head is safe once log and snapshot agree. */
  lemma EndWriteKeeps(s: State, ok: bool)
    requires ChainShape(s) && s.chain != [] && Unique(s.jobs) && |Completed(s.jobs)| <= MAX_COMPLETED_JOBS
    requires Folded(s.log) == s.jobs
    ensures Consistent(EndWrite(s, ok).(loaded := true))
  {
    var t := EndWrite(s, ok);
    forall k | 0 <= k < |t.chain| ensures t.chain[k] == s.chain[k + 1] {}
  }

  lemma RenameKeeps(s: State)
    requires Consistent(s) && s.progress.Written?
    ensures Consistent(WriteStep(s))
  {
    var renamed := s.(log := s.tmp.value, tmp := None, count := 0);
    CompactionPreserves(s.jobs);
    assert ChainShape(renamed);
    EndWriteKeeps(renamed, true);
    LoadedAlready(EndWrite(renamed, true));
  }

  lemma LoadedAlready(t: State)
    requires t.loaded
    ensures t.(loaded := true) == t
  {
  }

  lemma ApplyKeeps(s: State)
    requires Consistent(s) && s.progress.Persisted?
    ensures Consistent(WriteStep(s))
  {
    AppliedWithinLimit(s.jobs, s.chain[0].event);
    EndWriteKeeps(s.(jobs := Applied(s.jobs, s.chain[0].event), count := s.count + 1), true);
  }

  /** Steps that leave log and snapshot alone, and at most add a write to the chain. */
  ghost predicate QueueUntouched(s: State, t: State) {
    && t.log == s.log && t.tmp == s.tmp && t.jobs == s.jobs && t.loaded == s.loaded && t.progress == s.progress
    && (t.chain == s.chain
        || exists op: Op :: op.Append? && (op.event.Created? ==> op.event.job.status == Pending) && t.chain == s.chain + [op])
  }

  lemma UntouchedKeeps(s: State, t: State)
    requires Consistent(s) && QueueUntouched(s, t)
    ensures Consistent(t)
  {
    if t.chain != s.chain {
      assert forall k :: 0 <= k < |s.chain| ==> t.chain[k] == s.chain[k];
    }
  }

  lemma OtherSteps(targetOf: JobId -> PipelineId, s: State, input: Input)
    requires Allowed(targetOf, s, input) && !input.Write? && !input.WriteFails? && !input.Crash?
    ensures QueueUntouched(s, Step(targetOf, s, input))
  {
  }

  lemma WriteKeeps(s: State)
    requires Consistent(s) && s.chain != []
    ensures Consistent(WriteStep(s))
  {
    match s.progress
    case Waiting => if s.chain[0].Append? { PersistKeeps(s); } else { InitializeKeeps(s); }
    case Persisted => ApplyKeeps(s);
    case Compacting =>
    case Written => RenameKeeps(s);
  }

  lemma StepKeeps(targetOf: JobId -> PipelineId, s: State, input: Input)
    requires Consistent(s) && Allowed(targetOf, s, input)
    ensures Consistent(Step(targetOf, s, input))
  {
    match input
    case Write => WriteKeeps(s);
    case WriteFails => EndWriteKeeps(s, false);
    case Crash =>
    case _ =>
      OtherSteps(targetOf, s, input);
      UntouchedKeeps(s, Step(targetOf, s, input));
  }

  lemma HistoryConsistent(targetOf: JobId -> PipelineId, states: seq<State>)
    requires IsHistory(targetOf, states)
    ensures forall k :: 0 <= k < |states| ==> Consistent(states[k])
  {
    var next, inv := (a: State, b: State) => Next(targetOf, a, b), (s: State) => Consistent(s);
    forall a, b | inv(a) && next(a, b) ensures inv(b) {
      var input :| Allowed(targetOf, a, input) && b == Step(targetOf, a, input);
      StepKeeps(targetOf, a, input);
    }
    Invariance(states, next, inv);
    forall k | 0 <= k < |states| ensures Consistent(states[k]) { assert inv(states[k]); }
  }

  // ---------------------------------------------------------------- what a restart finds

  /** The snapshot after a crash at this moment and the next start's reading of the log. */
  function Restarted(s: State): seq<Job> {
    WriteStep(Fresh(s.log, s.tmp, s.clock, s.starts)).jobs
  }

  /** The snapshot in memory, or the snapshot with the event that is written but not yet applied. */
  function Outlook(s: State): seq<Job> {
    if s.progress.Persisted? && s.chain != [] && s.chain[0].Append? then Applied(s.jobs, s.chain[0].event) else s.jobs
  }

  /**
   * A queue that has been read can stop at any moment of any history: the next start finds exactly the
   * snapshot it had, in the same order, with running jobs pending again, or that snapshot with the one
   * event applied that was written but not yet applied.
   */
  lemma CrashRecovers(targetOf: JobId -> PipelineId, states: seq<State>, k: nat)
    requires IsHistory(targetOf, states) && k < |states| && states[k].loaded
    ensures Restarted(states[k]) == Recovered(Outlook(states[k]))
  {
    HistoryConsistent(targetOf, states);
    RestartFinds(states[k]);
  }

  lemma RestartFinds(s: State)
    requires Consistent(s) && s.loaded
    ensures Restarted(s) == Recovered(Outlook(s))
  {
    if Initializing(s) {
      forall x | x in s.jobs ensures x.status != Active { assert x in Recovered(Folded(s.log)); }
      RecoveredIdle(s.jobs);
    } else {
      if s.progress.Persisted? { AppliedWithinLimit(s.jobs, s.chain[0].event); }
      RecoveredCompleted(Folded(s.log));
      PruneIdle(Recovered(Folded(s.log)));
    }
  }

  /** Once the log has been read there are never more finished jobs than the limit. */
  lemma FinishedWithinLimit(targetOf: JobId -> PipelineId, states: seq<State>, k: nat)
    requires IsHistory(targetOf, states) && k < |states|
    ensures |Completed(states[k].jobs)| <= MAX_COMPLETED_JOBS
  {
    HistoryConsistent(targetOf, states);
  }
}
