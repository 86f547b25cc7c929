/** At most one job of a target runs at a time. */
module QueueExclusion {
  import opened Common
  import opened InboundQueue
  import opened Runs
  import opened QueueProcess
  import opened QueueRecovery

  /** The writes whose event is not yet in the snapshot. */
  function Todo(s: State): (r: seq<Op>)
    ensures forall op :: op in r ==> op in s.chain
  {
    if s.chain != [] && (s.progress.Compacting? || s.progress.Written?) then s.chain[1..] else s.chain
  }

  /** Every job, in the snapshot or in an event, belongs to its target. */
  ghost predicate Aimed(targetOf: JobId -> PipelineId, jobs: seq<Job>) {
    forall x :: x in jobs ==> x.toPipelineId == targetOf(x.jobId)
  }

  ghost predicate EventAimed(targetOf: JobId -> PipelineId, e: Event) {
    e.Created? ==> e.job.toPipelineId == targetOf(e.job.jobId)
  }

  ghost predicate LogAimed(targetOf: JobId -> PipelineId, log: seq<Event>) {
    forall e :: e in log ==> EventAimed(targetOf, e)
  }

  ghost predicate NoneActive(jobs: seq<Job>, target: PipelineId) {
    forall x :: x in jobs && x.toPipelineId == target ==> x.status != Active
  }

  ghost predicate OneActive(jobs: seq<Job>) {
    forall x, y :: x in jobs && y in jobs && x.status == Active && y.status == Active && x.toPipelineId == y.toPipelineId ==>
      x.jobId == y.jobId
  }

  /** A drain waits for its own writes, and has one in the chain at a time. */
  ghost predicate Awaited(s: State) {
    && (forall op :: op in s.chain && op.Append? && op.owner.DrainOf? ==> Awaits(s, op.owner.target))
    && (forall i, j :: 0 <= i < j < |s.chain| ==> !SameDrain(s.chain[i], s.chain[j]))
  }

  predicate Awaits(s: State, target: PipelineId) {
    && target in s.drains
    && (s.drains[target].Starting? || s.drains[target].Ending?)
    && s.drains[target].told.None?
  }

  predicate SameDrain(a: Op, b: Op) {
    a.Append? && b.Append? && a.owner.DrainOf? && b.owner == a.owner
  }

  /** A write that will set a job running is its own target's drain's, and finds no running job there. */
  ghost predicate StartAlone(targetOf: JobId -> PipelineId, jobs: seq<Job>, op: Op) {
    op.Append? && op.event.Running? ==>
      op.owner == DrainOf(targetOf(op.event.jobId)) && NoneActive(jobs, targetOf(op.event.jobId))
  }

  ghost predicate Guarded(targetOf: JobId -> PipelineId, s: State) {
    && Aimed(targetOf, s.jobs) && LogAimed(targetOf, s.log)
    && (forall op :: op in s.chain && op.Append? ==> EventAimed(targetOf, op.event))
    && OneActive(s.jobs)
    && (forall op :: op in Todo(s) ==> StartAlone(targetOf, s.jobs, op))
  }

  ghost predicate Exclusive(targetOf: JobId -> PipelineId, s: State) {
    Consistent(s) && Guarded(targetOf, s) && Awaited(s)
  }

  // ---------------------------------------------------------------- what events do to jobs

  /** Where a job of the new snapshot comes from. */
  lemma AppliedOrigin(jobs: seq<Job>, e: Event, x: Job)
    requires Unique(jobs) && x in Applied(jobs, e)
    ensures || (x in jobs && (e.Created? || x.jobId != e.jobId))
            || (e.Created? && x == e.job)
            || (!e.Created? && exists y :: y in jobs && y.jobId == e.jobId && x == Change(y, e))
  {
    if !e.Created? {
      var k := Position(jobs, e.jobId);
      if k < |jobs| {
        var next := jobs[k := Change(jobs[k], e)];
        assert x in next;
        var i :| 0 <= i < |next| && next[i] == x;
        assert jobs[k] in jobs && jobs[i] in jobs;
      }
    }
  }

  lemma {:induction false} FoldedAimed(targetOf: JobId -> PipelineId, log: seq<Event>)
    requires LogAimed(targetOf, log)
    ensures Aimed(targetOf, Folded(log))
  {
    if log == [] {
    } else {
      var front, e := log[..|log| - 1], log[|log| - 1];
      FoldedAimed(targetOf, front);
      AppliedAimed(targetOf, Folded(front), e);
    }
  }

  /** A job of the new snapshot is aimed where the job it comes from was. */
  lemma AimedOrigin(targetOf: JobId -> PipelineId, jobs: seq<Job>, e: Event, x: Job)
    requires Unique(jobs) && Aimed(targetOf, jobs) && EventAimed(targetOf, e) && x in Applied(jobs, e)
    ensures x.toPipelineId == targetOf(x.jobId)
  {
    AppliedOrigin(jobs, e, x);
    hide Applied, Unique;
    if x !in jobs && !e.Created? {
      var y :| y in jobs && y.jobId == e.jobId && x == Change(y, e);
    }
  }

  lemma AppliedAimed(targetOf: JobId -> PipelineId, jobs: seq<Job>, e: Event)
    requires Unique(jobs) && Aimed(targetOf, jobs) && EventAimed(targetOf, e)
    ensures Aimed(targetOf, Applied(jobs, e))
  {
    hide Applied, Unique, EventAimed;
    forall x | x in Applied(jobs, e) ensures x.toPipelineId == targetOf(x.jobId) { AimedOrigin(targetOf, jobs, e, x); }
  }

  /** Only a running event sets a job running, and only its own. */
  lemma ActiveOrigin(jobs: seq<Job>, e: Event, x: Job)
    requires Unique(jobs) && x in Applied(jobs, e) && x.status == Active
    requires e.Created? ==> e.job.status == Pending
    ensures (x in jobs && (e.Running? ==> x.jobId != e.jobId)) || (e.Running? && x.jobId == e.jobId)
  {
    AppliedOrigin(jobs, e, x);
  }

  lemma AppliedOneActive(targetOf: JobId -> PipelineId, jobs: seq<Job>, e: Event)
    requires Unique(jobs) && Aimed(targetOf, jobs) && EventAimed(targetOf, e) && OneActive(jobs)
    requires e.Created? ==> e.job.status == Pending
    requires e.Running? ==> NoneActive(jobs, targetOf(e.jobId))
    ensures OneActive(Applied(jobs, e))
  {
    var after := Applied(jobs, e);
    AppliedAimed(targetOf, jobs, e);
    forall x, y | x in after && y in after && x.status == Active && y.status == Active && x.toPipelineId == y.toPipelineId
      ensures x.jobId == y.jobId
    {
      ActiveOrigin(jobs, e, x);
      ActiveOrigin(jobs, e, y);
    }
  }

  lemma AppliedNoneActive(targetOf: JobId -> PipelineId, jobs: seq<Job>, e: Event, target: PipelineId)
    requires Unique(jobs) && Aimed(targetOf, jobs) && EventAimed(targetOf, e) && NoneActive(jobs, target)
    requires e.Created? ==> e.job.status == Pending
    requires e.Running? ==> targetOf(e.jobId) != target
    ensures NoneActive(Applied(jobs, e), target)
  {
    AppliedAimed(targetOf, jobs, e);
    forall x | x in Applied(jobs, e) && x.toPipelineId == target ensures x.status != Active {
      if x.status == Active { ActiveOrigin(jobs, e, x); }
    }
  }

  // ---------------------------------------------------------------- the chain and its owners

  /** Ending a write tells its owner and leaves the other owners waiting. */
  lemma EndWriteAwaited(s: State, ok: bool)
    requires Awaited(s) && s.chain != []
    ensures Awaited(EndWrite(s, ok))
  {
    var t := EndWrite(s, ok);
    forall op | op in t.chain && op.Append? && op.owner.DrainOf? ensures Awaits(t, op.owner.target) {
      var k :| 0 < k < |s.chain| && s.chain[k] == op;
      assert op in s.chain && !SameDrain(s.chain[0], s.chain[k]);
    }
  }

  /** A drain that awaits nothing may put one write into the chain and wait for it. */
  lemma EnqueueAwaited(s: State, op: Op, stage: Stage)
    requires Awaited(s) && op.Append? && op.owner.DrainOf? && !Awaits(s, op.owner.target)
    requires (stage.Starting? || stage.Ending?) && stage.told.None?
    ensures Awaited(s.(chain := s.chain + [op], drains := s.drains[op.owner.target := stage]))
  {
    var t := s.(chain := s.chain + [op], drains := s.drains[op.owner.target := stage]);
    forall i, j | 0 <= i < j < |t.chain| ensures !SameDrain(t.chain[i], t.chain[j]) {
      assert s.chain[i] in s.chain;
    }
  }

  /** A drain that awaits nothing may change its stage or go away. */
  lemma StageAwaited(s: State, target: PipelineId, drains: map<PipelineId, Stage>)
    requires Awaited(s) && !Awaits(s, target)
    requires forall p :: p in s.drains && p != target ==> p in drains && drains[p] == s.drains[p]
    ensures Awaited(s.(drains := drains))
  {
  }

  lemma OwnerlessAwaited(s: State, event: Event)
    requires Awaited(s)
    ensures Awaited(Enqueue(s, event, Nobody))
  {
  }

  lemma StepAwaited(targetOf: JobId -> PipelineId, s: State, input: Input)
    requires Awaited(s) && Allowed(targetOf, s, input)
    ensures Awaited(Step(targetOf, s, input))
  {
    var t := Step(targetOf, s, input);
    match input
    case Write => WriteAwaited(s);
    case WriteFails => EndWriteAwaited(s, false);
    case RequestDrain(target, busy, known, runId) => if target !in s.drains { DrainOneAwaited(s, target, busy, known, runId); }
    case RunEnds(target, how) => AfterRunAwaited(s, target, how);
    case LinkFound(target, ok) => AfterLookupAwaited(s, target, ok);
    case Advance(target) => StageAwaited(s, target, t.drains);
    case Settle(target) => StageAwaited(s, target, t.drains);
    case Dispatch(job) => OwnerlessAwaited(s, Created(job));
    case RequestCancel(jobId) => AnswerAwaited(s, CancelAnswer(s.jobs, jobId, s.clock));
    case RequestRetry(jobId) => AnswerAwaited(s, RetryAnswer(s.jobs, jobId));
    case Tick(now) =>
    case Crash =>
  }

  lemma AnswerAwaited(s: State, answer: Answer)
    requires Awaited(s)
    ensures Awaited(EnqueueAnswer(s, answer))
  {
    if answer.Appended? { OwnerlessAwaited(s, answer.event); }
  }

  lemma WriteAwaited(s: State)
    requires Awaited(s) && s.chain != []
    ensures Awaited(WriteStep(s))
  {
    match s.progress
    case Waiting =>
    case Persisted =>
      if s.chain[0].Append? {
        var next := s.(jobs := Applied(s.jobs, s.chain[0].event), count := s.count + 1);
        assert Awaited(next);
        EndWriteAwaited(next, true);
      }
    case Compacting =>
    case Written =>
      if s.tmp.Some? {
        var next := s.(log := s.tmp.value, tmp := None, count := 0);
        assert Awaited(next);
        EndWriteAwaited(next, true);
      }
  }

  lemma DrainOneAwaited(s: State, target: PipelineId, busy: bool, known: bool, runId: string)
    requires Awaited(s) && target !in s.drains
    ensures Awaited(DrainOne(s, target, busy, known, runId))
  {
    var t := DrainOne(s, target, busy, known, runId);
    if t.chain == s.chain {
      StageAwaited(s, target, t.drains);
    } else {
      var pending := JobsOf(s.jobs, target, Pending);
      EnqueueAwaited(s, Append(Running(s.clock, pending[0].jobId, runId), DrainOf(target)), Starting(pending[0], runId, None));
    }
  }

  lemma AfterRunAwaited(s: State, target: PipelineId, how: RunEnd)
    requires Awaited(s) && target in s.drains && s.drains[target].Executing?
    ensures Awaited(AfterRun(s, target, how))
  {
    var t := AfterRun(s, target, how);
    if t.chain == s.chain {
      StageAwaited(s, target, t.drains);
    } else {
      var job := s.drains[target].job;
      EnqueueAwaited(s, Append(Success(s.clock, job.jobId), DrainOf(target)), Ending(job, None));
    }
  }

  lemma AfterLookupAwaited(s: State, target: PipelineId, ok: bool)
    requires Awaited(s) && target in s.drains && s.drains[target].LookingUp?
    ensures Awaited(AfterLookup(s, target, ok))
  {
    var stage, t := s.drains[target], AfterLookup(s, target, ok);
    if ok {
      var failure := Failure(s.clock, stage.job.jobId, stage.failedRunId, stage.error);
      EnqueueAwaited(s, Append(failure, DrainOf(target)), Ending(stage.job, None));
    } else {
      StageAwaited(s, target, t.drains);
    }
  }

  // ---------------------------------------------------------------- the snapshot and the starting writes

  /** Steps between writes add at most one harmless write. */
  lemma UntouchedGuarded(targetOf: JobId -> PipelineId, s: State, t: State, op: Op)
    requires Guarded(targetOf, s) && ChainShape(s) && op.Append?
    requires t.log == s.log && t.jobs == s.jobs && t.progress == s.progress
    requires t.chain == s.chain || (t.chain == s.chain + [op] && EventAimed(targetOf, op.event) && StartAlone(targetOf, s.jobs, op))
    ensures Guarded(targetOf, t)
  {
    forall o | o in Todo(t) ensures StartAlone(targetOf, t.jobs, o) {
      assert o in Todo(s) || o == op;
    }
  }

  lemma DrainOneGuarded(targetOf: JobId -> PipelineId, s: State, target: PipelineId, busy: bool, known: bool, runId: string)
    requires Guarded(targetOf, s) && ChainShape(s)
    ensures Guarded(targetOf, DrainOne(s, target, busy, known, runId))
  {
    var pending := JobsOf(s.jobs, target, Pending);
    if pending != [] {
      var op := Append(Running(s.clock, pending[0].jobId, runId), DrainOf(target));
      assert pending[0] in pending;
      if JobsOf(s.jobs, target, Active) == [] {
        forall x | x in s.jobs && x.toPipelineId == target ensures x.status != Active {
          assert x.status == Active ==> x in JobsOf(s.jobs, target, Active);
        }
      }
      UntouchedGuarded(targetOf, s, DrainOne(s, target, busy, known, runId), op);
    }
  }

  lemma OtherGuarded(targetOf: JobId -> PipelineId, s: State, input: Input)
    requires Guarded(targetOf, s) && ChainShape(s) && Allowed(targetOf, s, input)
    requires !input.Write? && !input.WriteFails? && !input.Crash? && !input.RequestDrain?
    ensures Guarded(targetOf, Step(targetOf, s, input))
  {
    var t := Step(targetOf, s, input);
    var op := if t.chain == s.chain then Append(RetryRequested(""), Nobody) else t.chain[|s.chain|];
    UntouchedGuarded(targetOf, s, t, op);
  }

  lemma EndWriteGuarded(targetOf: JobId -> PipelineId, s: State, ok: bool)
    requires Guarded(targetOf, s) && s.chain != []
    ensures Guarded(targetOf, EndWrite(s, ok))
  {
    forall op | op in s.chain[1..] ensures op in Todo(s) {}
  }

  /** Nothing runs in a snapshot that has just been read. */
  lemma ReadSnapshot(targetOf: JobId -> PipelineId, log: seq<Event>)
    requires LogAimed(targetOf, log)
    ensures Aimed(targetOf, Pruned(Recovered(Folded(log))))
    ensures forall x :: x in Pruned(Recovered(Folded(log))) ==> x.status != Active
  {
    FoldedAimed(targetOf, log);
    var folded := Folded(log);
    forall x | x in Pruned(Recovered(folded)) ensures x.toPipelineId == targetOf(x.jobId) && x.status != Active {
      assert x in Recovered(folded);
      var k :| 0 <= k < |folded| && x == RecoveredJob(folded[k]);
      assert folded[k] in folded;
    }
  }

  lemma InitializeGuarded(targetOf: JobId -> PipelineId, s: State)
    requires Guarded(targetOf, s) && Initializing(s) && s.progress.Waiting?
    ensures Guarded(targetOf, WriteStep(s))
  {
    ReadSnapshot(targetOf, s.log);
    forall op | op in s.chain[1..] ensures StartAlone(targetOf, s.jobs, op) {
      assert op in Todo(s);
    }
  }

  lemma PersistGuarded(targetOf: JobId -> PipelineId, s: State)
    requires Guarded(targetOf, s) && s.chain != [] && s.chain[0].Append? && s.progress.Waiting?
    ensures Guarded(targetOf, WriteStep(s))
  {
    assert s.chain[0] in s.chain;
  }

  lemma ApplyGuarded(targetOf: JobId -> PipelineId, s: State)
    requires Exclusive(targetOf, s) && s.progress.Persisted?
    ensures Guarded(targetOf, WriteStep(s))
  {
    AppliedGuarded(targetOf, s);
    var next := s.(jobs := Applied(s.jobs, s.chain[0].event), count := s.count + 1, progress := Compacting);
    if next.count < COMPACT_TRIGGER_EVENT_COUNT {
      EndWriteGuarded(targetOf, next, true);
      assert WriteStep(s) == EndWrite(next, true);
    }
  }

  /** Once the event is applied the head of the chain is no longer to do. */
  lemma AppliedGuarded(targetOf: JobId -> PipelineId, s: State)
    requires Exclusive(targetOf, s) && s.progress.Persisted?
    ensures Guarded(targetOf, s.(jobs := Applied(s.jobs, s.chain[0].event), count := s.count + 1, progress := Compacting))
  {
    var op := s.chain[0];
    assert op in s.chain && op in Todo(s) && StartAlone(targetOf, s.jobs, op);
    AppliedAimed(targetOf, s.jobs, op.event);
    AppliedOneActive(targetOf, s.jobs, op.event);
    forall o | o in s.chain[1..] ensures StartAlone(targetOf, Applied(s.jobs, op.event), o) {
      StillAlone(targetOf, s, o);
    }
  }

  lemma StillAlone(targetOf: JobId -> PipelineId, s: State, o: Op)
    requires Exclusive(targetOf, s) && s.progress.Persisted? && o in s.chain[1..]
    ensures StartAlone(targetOf, Applied(s.jobs, s.chain[0].event), o)
  {
    var op := s.chain[0];
    assert op in Todo(s) && o in Todo(s) && StartAlone(targetOf, s.jobs, op) && StartAlone(targetOf, s.jobs, o);
    var k :| 0 < k < |s.chain| && s.chain[k] == o;
    assert !SameDrain(s.chain[0], s.chain[k]);
    if o.Append? && o.event.Running? {
      AppliedNoneActive(targetOf, s.jobs, op.event, targetOf(o.event.jobId));
    }
  }

  lemma RenameGuarded(targetOf: JobId -> PipelineId, s: State)
    requires Exclusive(targetOf, s) && s.progress.Written?
    ensures Guarded(targetOf, WriteStep(s))
  {
    forall e | e in Lines(s.jobs) ensures EventAimed(targetOf, e) {
      var k :| 0 <= k < |s.jobs| && e == Created(s.jobs[k]);
      assert s.jobs[k] in s.jobs;
    }
    EndWriteGuarded(targetOf, s.(log := s.tmp.value, tmp := None, count := 0), true);
  }

  lemma WriteGuarded(targetOf: JobId -> PipelineId, s: State)
    requires Exclusive(targetOf, s) && s.chain != []
    ensures Guarded(targetOf, WriteStep(s))
  {
    match s.progress
    case Waiting => if s.chain[0].Append? { PersistGuarded(targetOf, s); } else { InitializeGuarded(targetOf, s); }
    case Persisted => ApplyGuarded(targetOf, s);
    case Compacting =>
    case Written => RenameGuarded(targetOf, s);
  }

  lemma StepGuarded(targetOf: JobId -> PipelineId, s: State, input: Input)
    requires Exclusive(targetOf, s) && Allowed(targetOf, s, input)
    ensures Guarded(targetOf, Step(targetOf, s, input))
  {
    match input
    case Write =>
      WriteGuarded(targetOf, s);
    case WriteFails => EndWriteGuarded(targetOf, s, false);
    case Crash =>
    case RequestDrain(target, busy, known, runId) => if target !in s.drains { DrainOneGuarded(targetOf, s, target, busy, known, runId); }
    case _ => OtherGuarded(targetOf, s, input);
  }

  lemma StepExclusive(targetOf: JobId -> PipelineId, s: State, input: Input)
    requires Exclusive(targetOf, s) && Allowed(targetOf, s, input)
    ensures Exclusive(targetOf, Step(targetOf, s, input))
  {
    StepKeeps(targetOf, s, input);
    StepGuarded(targetOf, s, input);
    StepAwaited(targetOf, s, input);
  }

  lemma HistoryExclusive(targetOf: JobId -> PipelineId, states: seq<State>)
    requires IsHistory(targetOf, states) && LogAimed(targetOf, states[0].log)
    ensures forall k :: 0 <= k < |states| ==> Exclusive(targetOf, states[k])
  {
    var next, inv := (a: State, b: State) => Next(targetOf, a, b), (s: State) => Exclusive(targetOf, s);
    forall a, b | inv(a) && next(a, b) ensures inv(b) {
      var input :| Allowed(targetOf, a, input) && b == Step(targetOf, a, input);
      StepExclusive(targetOf, a, input);
    }
    Invariance(states, next, inv);
    forall k | 0 <= k < |states| ensures Exclusive(targetOf, states[k]) { assert inv(states[k]); }
  }

  /**
   * In every history of requests, dispatches, cancels, retries, writes and crashes, no two jobs of
   * one target are ever running together.
   */
  lemma AtMostOneRunning(targetOf: JobId -> PipelineId, states: seq<State>, k: nat, i: nat, j: nat)
    requires IsHistory(targetOf, states) && LogAimed(targetOf, states[0].log) && k < |states|
    requires i < |states[k].jobs| && j < |states[k].jobs| && states[k].jobs[i].toPipelineId == states[k].jobs[j].toPipelineId
    requires states[k].jobs[i].status == Active && states[k].jobs[j].status == Active
    ensures i == j
  {
    HistoryExclusive(targetOf, states);
    var s := states[k];
    assert s.jobs[i] in s.jobs && s.jobs[j] in s.jobs;
    PositionIs(s.jobs, i);
    PositionIs(s.jobs, j);
  }
}
