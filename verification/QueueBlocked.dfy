/** What becomes of a running job that nobody attends to: it blocks its target until the process starts again. */
module QueueBlocked {
  import opened Common
  import opened InboundQueue
  import opened QueueProcess
  import opened Runs

  function About(e: Event): JobId { if e.Created? then e.job.jobId else e.jobId }

  predicate HasJob(stage: Stage, jobId: JobId) { !stage.Over? && stage.job.jobId == jobId }

  ghost predicate NoneHas(drains: map<PipelineId, Stage>, jobId: JobId) {
    forall p :: p in drains ==> !HasJob(drains[p], jobId)
  }

  /** The job runs, but no drain has it and no write about it is queued. */
  ghost predicate Unattended(s: State, x: Job) {
    && Unique(s.jobs) && x in s.jobs && x.status == Active
    && (forall op :: op in s.chain ==> op.Append? && About(op.event) != x.jobId)
    && NoneHas(s.drains, x.jobId)
  }

  /** An execution that throws ends its drain without a word about the job. */
  lemma ThrowLeavesUnattended(s: State, target: PipelineId, x: Job)
    requires target in s.drains && s.drains[target].Executing? && s.drains[target].job.jobId == x.jobId
    requires Unattended(s.(drains := s.drains - {target}), x)
    ensures Unattended(AfterRun(s, target, Threw), x)
  {
    var less := s.drains - {target};
    assert forall p :: p in s.drains && p != target ==> p in less && less[p] == s.drains[p];
  }

  lemma OnlyOne(jobs: seq<Job>, x: Job, y: Job)
    requires Unique(jobs) && x in jobs && y in jobs && x.jobId == y.jobId
    ensures x == y
  {
    var i :| 0 <= i < |jobs| && jobs[i] == x;
    var j :| 0 <= j < |jobs| && jobs[j] == y;
  }

  lemma AppliedKeeps(jobs: seq<Job>, e: Event, x: Job)
    requires Unique(jobs) && x in jobs && x.status == Active && About(e) != x.jobId
    ensures x in Applied(jobs, e)
  {
    var i :| 0 <= i < |jobs| && jobs[i] == x;
    hide Unique, Change, Pruned;
    if e.Created? {
      assert Put(jobs, e.job)[i] == x;
    } else {
      var next := ChangedKeeps(jobs, e, x);
      PrunedKeeps(next, x);
    }
  }

  lemma ChangedKeeps(jobs: seq<Job>, e: Event, x: Job) returns (next: seq<Job>)
    requires Unique(jobs) && x in jobs && !e.Created? && e.jobId != x.jobId
    ensures next == (var k := Position(jobs, e.jobId); if k < |jobs| then jobs[k := Change(jobs[k], e)] else jobs)
    ensures Unique(next) && x in next
  {
    var i :| 0 <= i < |jobs| && jobs[i] == x;
    var k := Position(jobs, e.jobId);
    next := if k < |jobs| then jobs[k := Change(jobs[k], e)] else jobs;
    assert next[i] == x;
  }

  lemma PrunedKeeps(jobs: seq<Job>, x: Job)
    requires Unique(jobs) && x in jobs && x.status == Active
    ensures x in Pruned(jobs)
  {
    hide Pruned, Unique;
    if x !in Pruned(jobs) { PruneDropsEarliest(jobs, x, x); }
  }

  /** A write about other jobs, or a drain that does not have the job. */
  lemma EnqueueUnattended(s: State, x: Job, op: Op, drains: map<PipelineId, Stage>, starts: seq<Job>)
    requires Unattended(s, x) && op.Append? && About(op.event) != x.jobId
    requires NoneHas(drains, x.jobId)
    ensures Unattended(s.(chain := s.chain + [op], drains := drains, starts := starts), x)
    ensures Unattended(s.(drains := drains), x)
  {
  }

  lemma EndWriteUnattended(s: State, x: Job, ok: bool)
    requires Unattended(s, x) && s.chain != []
    ensures Unattended(EndWrite(s, ok), x)
  {
    forall op | op in s.chain[1..] ensures op in s.chain {}
  }

  lemma WriteUnattended(s: State, x: Job)
    requires Unattended(s, x) && s.chain != []
    ensures Unattended(WriteStep(s), x)
  {
    hide Applied, EndWrite, Unique;
    var op := s.chain[0];
    assert op in s.chain;
    match s.progress
    case Waiting =>
    case Persisted =>
      AppliedUnattended(s, x, op.event);
      EndWriteUnattended(s.(jobs := Applied(s.jobs, op.event), count := s.count + 1), x, true);
    case Compacting =>
    case Written =>
      if s.tmp.Some? { EndWriteUnattended(s.(log := s.tmp.value, tmp := None, count := 0), x, true); }
  }

  lemma AppliedUnattended(s: State, x: Job, e: Event)
    requires Unattended(s, x) && About(e) != x.jobId
    ensures Unattended(s.(jobs := Applied(s.jobs, e), count := s.count + 1), x)
  {
    AppliedKeeps(s.jobs, e, x);
  }

  /** What a step that is not a crash keeps: the job runs on, and its target starts nothing. */
  ghost predicate StillBlocked(s: State, t: State, x: Job) {
    Unattended(t, x) && (t.starts == s.starts || exists j :: t.starts == s.starts + [j] && j.toPipelineId != x.toPipelineId)
  }

  lemma StagedUnattended(s: State, x: Job, target: PipelineId, stage: Stage)
    requires Unattended(s, x) && !HasJob(stage, x.jobId)
    ensures Unattended(s.(drains := s.drains[target := stage]), x)
    ensures NoneHas(s.drains[target := stage], x.jobId)
  {
    hide Unique, HasJob;
  }

  lemma DrainOneBlocked(s: State, target: PipelineId, busy: bool, known: bool, runId: string, x: Job)
    requires Unattended(s, x)
    ensures StillBlocked(s, DrainOne(s, target, busy, known, runId), x)
  {
    hide Unique, JobsOf, NoneHas;
    var pending, active := JobsOf(s.jobs, target, Pending), JobsOf(s.jobs, target, Active);
    assert target == x.toPipelineId ==> x in active;
    if pending == [] {
      StagedUnattended(s, x, target, Over);
    } else {
      var job := pending[0];
      assert job in pending;
      if job.jobId == x.jobId { OnlyOne(s.jobs, x, job); }
      StagedUnattended(s, x, target, Over);
      StagedUnattended(s, x, target, LookingUp(job, None, "pipeline_not_found"));
      StagedUnattended(s, x, target, Starting(job, runId, None));
      EnqueueUnattended(s, x, Append(Running(s.clock, job.jobId, runId), DrainOf(target)),
                        s.drains[target := Starting(job, runId, None)], s.starts + [job]);
    }
  }

  lemma AnswersSpare(s: State, x: Job, jobId: JobId)
    requires Unattended(s, x)
    ensures Unattended(EnqueueAnswer(s, CancelAnswer(s.jobs, jobId, s.clock)), x)
    ensures Unattended(EnqueueAnswer(s, RetryAnswer(s.jobs, jobId)), x)
  {
    AnswersExactly(s.jobs, jobId, s.clock);
    forall y | y in s.jobs && y.jobId == x.jobId ensures y == x { OnlyOne(s.jobs, x, y); }
    hide Unique, Position;
  }

  lemma StepBlocked(targetOf: JobId -> PipelineId, s: State, input: Input, x: Job)
    requires Unattended(s, x) && Allowed(targetOf, s, input) && !input.Crash?
    ensures StillBlocked(s, Step(targetOf, s, input), x)
  {
    hide Unique, WriteStep, DrainOne, CancelAnswer, RetryAnswer, AfterRun, AfterLookup;
    match input
    case Tick(now) =>
    case Dispatch(job) => DispatchBlocked(s, x, job);
    case RequestCancel(jobId) => AnswersSpare(s, x, jobId);
    case RequestRetry(jobId) => AnswersSpare(s, x, jobId);
    case RequestDrain(target, busy, known, runId) => DrainOneBlocked(s, target, busy, known, runId, x);
    case Advance(target) => StageUnattended(s, x, target, AfterWrite(s.drains[target]));
    case RunEnds(target, how) => RunEndsUnattended(s, x, target, how);
    case LinkFound(target, ok) => LookupUnattended(s, x, target, ok);
    case Settle(target) => StageUnattended(s, x, target, Over);
    case Write => WriteUnattended(s, x); WriteStarts(s);
    case WriteFails => EndWriteUnattended(s, x, false);
  }

  lemma StageUnattended(s: State, x: Job, target: PipelineId, stage: Stage)
    requires Unattended(s, x) && target in s.drains && !HasJob(stage, x.jobId)
    ensures Unattended(s.(drains := s.drains[target := stage]), x) && Unattended(s.(drains := s.drains - {target}), x)
  {
    hide Unique;
  }

  lemma RunEndsUnattended(s: State, x: Job, target: PipelineId, how: RunEnd)
    requires Unattended(s, x) && target in s.drains && s.drains[target].Executing?
    ensures Unattended(AfterRun(s, target, how), x) && AfterRun(s, target, how).starts == s.starts
  {
    hide Unique;
    assert !HasJob(s.drains[target], x.jobId);
  }

  lemma LookupUnattended(s: State, x: Job, target: PipelineId, ok: bool)
    requires Unattended(s, x) && target in s.drains && s.drains[target].LookingUp?
    ensures Unattended(AfterLookup(s, target, ok), x) && AfterLookup(s, target, ok).starts == s.starts
  {
    hide Unique;
    assert !HasJob(s.drains[target], x.jobId);
  }

  lemma WriteStarts(s: State)
    requires s.chain != []
    ensures WriteStep(s).starts == s.starts
  {
  }

  lemma DispatchBlocked(s: State, x: Job, job: Job)
    requires Unattended(s, x) && Position(s.jobs, job.jobId) == |s.jobs|
    ensures Unattended(Enqueue(s, Created(job), Nobody), x)
  {
    var i :| 0 <= i < |s.jobs| && s.jobs[i] == x;
  }

  /** A step in which the process does not crash. */
  ghost predicate NextLive(targetOf: JobId -> PipelineId, a: State, b: State) {
    exists input :: Allowed(targetOf, a, input) && !input.Crash? && b == Step(targetOf, a, input)
  }

  ghost predicate Blocking(x: Job, from: seq<Job>, s: State) {
    && Unattended(s, x)
    && |s.starts| >= |from|
    && forall i :: |from| <= i < |s.starts| ==> s.starts[i].toPipelineId != x.toPipelineId
  }

  /**
   * A running job that nobody attends to runs for ever: as long as the process does not crash it keeps its
   * status, and no job of its target is started any more.
   */
  lemma UnattendedBlocks(targetOf: JobId -> PipelineId, states: seq<State>, x: Job, k: nat)
    requires Linked(states, (a: State, b: State) => NextLive(targetOf, a, b)) && Unattended(states[0], x) && k < |states|
    ensures x in states[k].jobs && x.status == Active
    ensures |states[k].starts| >= |states[0].starts|
    ensures forall i :: |states[0].starts| <= i < |states[k].starts| ==> states[k].starts[i].toPipelineId != x.toPipelineId
  {
    hide Unattended, Allowed, Step;
    var next, inv := (a: State, b: State) => NextLive(targetOf, a, b), (s: State) => Blocking(x, states[0].starts, s);
    forall a, b | inv(a) && next(a, b) ensures inv(b) { LiveBlocking(targetOf, x, states[0].starts, a, b); }
    Invariance(states, next, inv);
    assert inv(states[k]);
    UnattendedRuns(states[k], x);
  }

  lemma UnattendedRuns(s: State, x: Job)
    requires Unattended(s, x)
    ensures x in s.jobs && x.status == Active
  {
  }

  lemma LiveBlocking(targetOf: JobId -> PipelineId, x: Job, from: seq<Job>, a: State, b: State)
    requires Blocking(x, from, a) && NextLive(targetOf, a, b)
    ensures Blocking(x, from, b)
  {
    hide Unattended, Allowed, Step;
    var input :| Allowed(targetOf, a, input) && !input.Crash? && b == Step(targetOf, a, input);
    StepBlocked(targetOf, a, input, x);
  }
}
