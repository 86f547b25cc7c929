/** When a running job is left with nobody attending to it: exactly if one of four things goes wrong. */
module QueueAttended {
  import opened Common
  import opened InboundQueue
  import opened Runs
  import opened QueueProcess
  import opened QueueRecovery
  import opened QueueExclusion
  import opened QueueBlocked

  /**
   * An execution throws; after a failed one, looking its link up throws, as in a link file without a list of links;
   * the write that says the job runs fails once its event is in the log; the write that says it has ended fails
   * before that.
   */
  datatype Fault = ExecutionThrows | LookupThrows | StartUnconfirmed | EndUnwritten

  function FaultOf(s: State, input: Input): Option<Fault> {
    match input
    case RunEnds(_, Threw) => Some(ExecutionThrows)
    case LinkFound(_, false) => Some(LookupThrows)
    case WriteFails =>
      if s.chain == [] || !s.chain[0].Append? then None
      else if s.chain[0].event.Running? && !s.progress.Waiting? then Some(StartUnconfirmed)
      else if (s.chain[0].event.Success? || s.chain[0].event.Failure?) && s.progress.Waiting? then Some(EndUnwritten)
      else None
    case _ => None
  }

  /** A step in which nothing else goes wrong than what is in `faults`. */
  ghost predicate NextWith(targetOf: JobId -> PipelineId, faults: set<Fault>, a: State, b: State) {
    exists input :: MoveWith(targetOf, faults, a, input, b)
  }

  ghost predicate MoveWith(targetOf: JobId -> PipelineId, faults: set<Fault>, a: State, input: Input, b: State) {
    && Allowed(targetOf, a, input) && b == Step(targetOf, a, input)
    && (FaultOf(a, input).Some? ==> FaultOf(a, input).value in faults)
  }

  /** A history, crashes included, that starts with any log on disk. */
  ghost predicate HistoryWith(targetOf: JobId -> PipelineId, faults: set<Fault>, states: seq<State>) {
    && Linked(states, (a: State, b: State) => NextWith(targetOf, faults, a, b))
    && states[0] == Fresh(states[0].log, states[0].tmp, states[0].clock, [])
    && LogAimed(targetOf, states[0].log)
  }

  ghost predicate Reached(targetOf: JobId -> PipelineId, faults: set<Fault>, s: State) {
    exists states :: HistoryWith(targetOf, faults, states) && states[|states| - 1] == s
  }

  ghost predicate CanBlock(targetOf: JobId -> PipelineId, faults: set<Fault>) {
    exists s, x :: Reached(targetOf, faults, s) && Unattended(s, x)
  }

  // ---------------------------------------------------------------- the invariant

  /** The drain is about to run the job, runs it, or is about to say how it ended. */
  predicate Holds(stage: Stage, jobId: JobId) {
    match stage
    case Starting(job, _, told) => job.jobId == jobId && told != Some(false)
    case Executing(job, _) => job.jobId == jobId
    case LookingUp(job, _, _) => job.jobId == jobId
    case Ending(job, told) => job.jobId == jobId && told == None
    case Over => false
  }

  /** The event whose write a drain awaits. */
  predicate OwnEvent(stage: Stage, e: Event) {
    match stage
    case Starting(job, _, None) => e.Running? && e.jobId == job.jobId
    case Ending(job, None) => (e.Success? || e.Failure?) && e.jobId == job.jobId
    case _ => false
  }

  ghost predicate Matched(s: State) {
    forall op :: op in s.chain && op.Append? && op.owner.DrainOf? ==>
      op.owner.target in s.drains && OwnEvent(s.drains[op.owner.target], op.event)
  }

  /** Every running job is held by the drain of its target. */
  ghost predicate Attended(s: State) {
    forall x :: x in s.jobs && x.status == Active ==> x.toPipelineId in s.drains && Holds(s.drains[x.toPipelineId], x.jobId)
  }

  predicate Ends(e: Event) { e.Success? || e.Failure? }

  /** While an ending event is being compacted away, the job it is about does not run. */
  ghost predicate HeadDone(s: State) {
    s.chain != [] && s.chain[0].Append? && Ends(s.chain[0].event) && (s.progress.Compacting? || s.progress.Written?) ==>
      forall x :: x in s.jobs && x.jobId == s.chain[0].event.jobId ==> x.status != Active
  }

  ghost predicate Tended(targetOf: JobId -> PipelineId, s: State) {
    Exclusive(targetOf, s) && Matched(s) && Attended(s) && HeadDone(s)
  }

  lemma TendedIsAttended(targetOf: JobId -> PipelineId, s: State, x: Job)
    requires Tended(targetOf, s)
    ensures !Unattended(s, x)
  {
    hide Exclusive, Unique;
    if Unattended(s, x) {
      assert false;
    }
  }

  // ---------------------------------------------------------------- steps of drains

  /** A drain that awaits no write goes to another stage and holds what it held. */
  lemma StageTended(targetOf: JobId -> PipelineId, s: State, target: PipelineId, stage: Stage)
    requires Tended(targetOf, s) && !Awaits(s, target)
    requires target in s.drains ==> forall id :: Holds(s.drains[target], id) ==> Holds(stage, id)
    ensures var t := s.(drains := s.drains[target := stage]); Matched(t) && Attended(t) && HeadDone(t)
  {
    hide Consistent, Guarded, OwnEvent, Holds;
  }

  lemma GoneTended(targetOf: JobId -> PipelineId, s: State, target: PipelineId)
    requires Tended(targetOf, s) && target in s.drains && s.drains[target].Over?
    ensures var t := s.(drains := s.drains - {target}); Matched(t) && Attended(t) && HeadDone(t)
  {
    hide Consistent, Guarded;
  }

  /** A drain puts its own event into the chain. */
  lemma OwnTended(s: State, target: PipelineId, stage: Stage, e: Event, starts: seq<Job>)
    requires OwnEvent(stage, e)
    requires var t := s.(drains := s.drains[target := stage]); Matched(t) && Attended(t) && HeadDone(t)
    requires s.progress.Compacting? || s.progress.Written? ==> s.chain != []
    ensures var t := s.(drains := s.drains[target := stage], chain := s.chain + [Append(e, DrainOf(target))], starts := starts);
            Matched(t) && Attended(t) && HeadDone(t)
  {
    hide OwnEvent, Holds;
  }

  lemma OthersTended(s: State, op: Op)
    requires Matched(s) && Attended(s) && HeadDone(s) && op.Append? && op.owner == Nobody
    requires s.progress.Compacting? || s.progress.Written? ==> s.chain != []
    ensures var t := s.(chain := s.chain + [op]); Matched(t) && Attended(t) && HeadDone(t)
  {
    hide OwnEvent, Holds;
  }

  lemma DrainOneTended(targetOf: JobId -> PipelineId, s: State, target: PipelineId, busy: bool, known: bool, runId: string)
    requires Tended(targetOf, s) && target !in s.drains
    ensures var t := DrainOne(s, target, busy, known, runId); Matched(t) && Attended(t) && HeadDone(t)
  {
    var pending := JobsOf(s.jobs, target, Pending);
    assert ChainShape(s);
    hide JobsOf, Tended, Exclusive, Matched, Attended, HeadDone;
    StageTended(targetOf, s, target, Over);
    if pending != [] {
      StageTended(targetOf, s, target, LookingUp(pending[0], None, "pipeline_not_found"));
      StageTended(targetOf, s, target, Starting(pending[0], runId, None));
      OwnTended(s, target, Starting(pending[0], runId, None), Running(s.clock, pending[0].jobId, runId), s.starts + [pending[0]]);
    }
  }

  lemma AfterRunTended(targetOf: JobId -> PipelineId, s: State, target: PipelineId, how: RunEnd)
    requires Tended(targetOf, s) && target in s.drains && s.drains[target].Executing? && how != Threw
    ensures var t := AfterRun(s, target, how); Matched(t) && Attended(t) && HeadDone(t)
  {
    var job, runId := s.drains[target].job, s.drains[target].runId;
    assert ChainShape(s);
    hide Tended, Exclusive, Matched, Attended, HeadDone;
    StageTended(targetOf, s, target, LookingUp(job, Some(runId), "unknown_error"));
    StageTended(targetOf, s, target, LookingUp(job, Some(runId), "pipeline_execution_failed"));
    StageTended(targetOf, s, target, Ending(job, None));
    OwnTended(s, target, Ending(job, None), Success(s.clock, job.jobId), s.starts);
  }

  lemma AfterLookupTended(targetOf: JobId -> PipelineId, s: State, target: PipelineId)
    requires Tended(targetOf, s) && target in s.drains && s.drains[target].LookingUp?
    ensures var t := AfterLookup(s, target, true); Matched(t) && Attended(t) && HeadDone(t)
  {
    var stage := s.drains[target];
    assert ChainShape(s);
    hide Tended, Exclusive, Matched, Attended, HeadDone;
    StageTended(targetOf, s, target, Ending(stage.job, None));
    OwnTended(s, target, Ending(stage.job, None), Failure(s.clock, stage.job.jobId, stage.failedRunId, stage.error), s.starts);
  }

  // ---------------------------------------------------------------- steps of writes

  /** The write at the head ends.  Its owner lets go of its job only when that does not run. */
  lemma EndWriteTended(s: State, ok: bool)
    requires s.chain != [] && Matched(s) && Attended(s) && Awaited(s)
    requires var op := s.chain[0]; op.Append? && op.owner.DrainOf? && (!ok || Ends(op.event)) ==>
               forall x :: x in s.jobs && x.toPipelineId == op.owner.target && x.jobId == About(op.event) ==> x.status != Active
    ensures var t := EndWrite(s, ok); Matched(t) && Attended(t) && HeadDone(t)
  {
    hide Awaits;
    var t := EndWrite(s, ok);
    forall op | op in t.chain && op.Append? && op.owner.DrainOf?
      ensures op.owner.target in t.drains && OwnEvent(t.drains[op.owner.target], op.event)
    {
      var k :| 0 < k < |s.chain| && s.chain[k] == op;
      assert op in s.chain && !SameDrain(s.chain[0], s.chain[k]);
    }
    forall x | x in t.jobs && x.status == Active
      ensures x.toPipelineId in t.drains && Holds(t.drains[x.toPipelineId], x.jobId)
    {
      assert s.chain[0] in s.chain;
    }
  }

  /** Applying an event: a job it sets running is held by the drain whose write this is. */
  lemma AppliedAttended(targetOf: JobId -> PipelineId, s: State)
    requires Tended(targetOf, s) && s.progress.Persisted?
    ensures Attended(s.(jobs := Applied(s.jobs, s.chain[0].event)))
  {
    var op := s.chain[0];
    assert op in s.chain && op in Todo(s) && StartAlone(targetOf, s.jobs, op);
    AppliedAimed(targetOf, s.jobs, op.event);
    hide Applied, Unique, NoneActive;
    forall x | x in Applied(s.jobs, op.event) && x.status == Active
      ensures x.toPipelineId in s.drains && Holds(s.drains[x.toPipelineId], x.jobId)
    {
      ActiveOrigin(s.jobs, op.event, x);
    }
  }

  /** An ending event leaves its job with an outcome. */
  lemma AppliedEnds(jobs: seq<Job>, e: Event, x: Job)
    requires Unique(jobs) && Ends(e) && x in Applied(jobs, e) && x.jobId == e.jobId
    ensures x.status != Active
  {
    AppliedOrigin(jobs, e, x);
  }

  lemma ApplyTended(targetOf: JobId -> PipelineId, s: State)
    requires Tended(targetOf, s) && s.progress.Persisted?
    ensures var t := WriteStep(s); Matched(t) && Attended(t) && HeadDone(t)
  {
    var op := s.chain[0];
    var next := s.(jobs := Applied(s.jobs, op.event), count := s.count + 1);
    AppliedAttended(targetOf, s);
    hide Applied, Unique, Guarded, ChainShape, Matches, OwnEvent, Holds;
    if Ends(op.event) {
      forall x | x in next.jobs && x.jobId == op.event.jobId ensures x.status != Active { AppliedEnds(s.jobs, op.event, x); }
    }
    if next.count < COMPACT_TRIGGER_EVENT_COUNT {
      assert Awaited(next) by { SameAwaited(s, next); }
      EndWriteTended(next, true);
    }
  }

  lemma SameAwaited(s: State, t: State)
    requires Awaited(s) && t.chain == s.chain && t.drains == s.drains
    ensures Awaited(t)
  {
  }

  lemma RenameTended(targetOf: JobId -> PipelineId, s: State)
    requires Tended(targetOf, s) && s.progress.Written?
    ensures var t := WriteStep(s); Matched(t) && Attended(t) && HeadDone(t)
  {
    hide Unique, Guarded, Matches, OwnEvent, Holds;
    if s.tmp.Some? {
      var next := s.(log := s.tmp.value, tmp := None, count := 0);
      SameAwaited(s, next);
      EndWriteTended(next, true);
    }
  }

  lemma InitializeTended(targetOf: JobId -> PipelineId, s: State)
    requires Tended(targetOf, s) && Initializing(s) && s.progress.Waiting?
    ensures var t := WriteStep(s); Matched(t) && Attended(t) && HeadDone(t)
  {
    ReadSnapshot(targetOf, s.log);
    hide Pruned, Recovered, Folded, Unique;
  }

  lemma WriteTended(targetOf: JobId -> PipelineId, s: State)
    requires Tended(targetOf, s) && s.chain != []
    ensures var t := WriteStep(s); Matched(t) && Attended(t) && HeadDone(t)
  {
    hide Unique, Guarded, Applied, Pruned;
    match s.progress
    case Waiting => if s.chain[0].Initialize? { InitializeTended(targetOf, s); }
    case Persisted => ApplyTended(targetOf, s);
    case Compacting =>
    case Written => RenameTended(targetOf, s);
  }

  /** A write that fails harmlessly: it says nothing of a job's end that the log lacks, or of a start that the log has. */
  lemma FailureTended(targetOf: JobId -> PipelineId, s: State)
    requires Tended(targetOf, s) && Allowed(targetOf, s, WriteFails) && FaultOf(s, WriteFails).None?
    ensures var t := EndWrite(s, false); Matched(t) && Attended(t) && HeadDone(t)
  {
    var op := s.chain[0];
    assert op in s.chain;
    if op.owner.DrainOf? && op.event.Running? {
      assert op in Todo(s) && StartAlone(targetOf, s.jobs, op);
    }
    hide Unique, Matches, EventAimed;
    EndWriteTended(s, false);
  }

  lemma AnswerTended(targetOf: JobId -> PipelineId, s: State, answer: Answer)
    requires Tended(targetOf, s)
    ensures var t := EnqueueAnswer(s, answer); Matched(t) && Attended(t) && HeadDone(t)
  {
    assert ChainShape(s);
    hide Exclusive, Matched, Attended, HeadDone;
    if answer.Appended? { OthersTended(s, Append(answer.event, Nobody)); }
  }

  lemma AdvanceTended(targetOf: JobId -> PipelineId, s: State, target: PipelineId)
    requires Tended(targetOf, s) && Allowed(targetOf, s, Advance(target))
    ensures var t := Step(targetOf, s, Advance(target)); Matched(t) && Attended(t) && HeadDone(t)
  {
    hide Tended;
    StageTended(targetOf, s, target, AfterWrite(s.drains[target]));
  }

  lemma StepTended(targetOf: JobId -> PipelineId, s: State, input: Input)
    requires Tended(targetOf, s) && Allowed(targetOf, s, input) && FaultOf(s, input).None?
    ensures Tended(targetOf, Step(targetOf, s, input))
  {
    StepExclusive(targetOf, s, input);
    assert ChainShape(s);
    hide Exclusive, Matched, Attended, HeadDone, WriteStep, EndWrite, DrainOne, AfterRun, AfterLookup, EnqueueAnswer, CancelAnswer, RetryAnswer;
    match input
    case Tick(now) => TickTended(s, now);
    case Dispatch(job) => OthersTended(s, Append(Created(job), Nobody));
    case RequestCancel(jobId) => AnswerTended(targetOf, s, CancelAnswer(s.jobs, jobId, s.clock));
    case RequestRetry(jobId) => AnswerTended(targetOf, s, RetryAnswer(s.jobs, jobId));
    case RequestDrain(target, busy, known, runId) =>
      if target !in s.drains { DrainOneTended(targetOf, s, target, busy, known, runId); }
    case Advance(target) => AdvanceTended(targetOf, s, target);
    case RunEnds(target, how) => AfterRunTended(targetOf, s, target, how);
    case LinkFound(target, ok) => AfterLookupTended(targetOf, s, target);
    case Settle(target) => GoneTended(targetOf, s, target);
    case Write => WriteTended(targetOf, s);
    case WriteFails => FailureTended(targetOf, s);
    case Crash => FreshTended(s.log, s.tmp, s.clock, s.starts);
  }

  lemma TickTended(s: State, now: int)
    requires Matched(s) && Attended(s) && HeadDone(s)
    ensures var t := s.(clock := now); Matched(t) && Attended(t) && HeadDone(t)
  {
  }

  lemma FreshTended(log: seq<Event>, tmp: Option<seq<Event>>, clock: int, starts: seq<Job>)
    ensures var t := Fresh(log, tmp, clock, starts); Matched(t) && Attended(t) && HeadDone(t)
  {
  }

  // ---------------------------------------------------------------- nothing goes wrong

  lemma StartTended(targetOf: JobId -> PipelineId, s: State)
    requires s == Fresh(s.log, s.tmp, s.clock, []) && LogAimed(targetOf, s.log)
    ensures Tended(targetOf, s)
  {
  }

  /** Along every history in which none of the four goes wrong, every running job is held by its target's drain. */
  lemma HistoryTended(targetOf: JobId -> PipelineId, states: seq<State>, k: nat)
    requires HistoryWith(targetOf, {}, states) && k < |states|
    ensures Tended(targetOf, states[k])
  {
    StartTended(targetOf, states[0]);
    hide Tended, Allowed, Step, LogAimed;
    var next, inv := (a: State, b: State) => NextWith(targetOf, {}, a, b), (s: State) => Tended(targetOf, s);
    forall a, b | inv(a) && next(a, b) ensures inv(b) {
      var input :| MoveWith(targetOf, {}, a, input, b);
      StepTended(targetOf, a, input);
    }
    Invariance(states, next, inv);
    assert inv(states[k]);
  }

  lemma NeverUnattended(targetOf: JobId -> PipelineId, s: State, x: Job)
    requires Reached(targetOf, {}, s)
    ensures !Unattended(s, x)
  {
    hide NextWith, LogAimed, Tended;
    var states :| HistoryWith(targetOf, {}, states) && states[|states| - 1] == s;
    HistoryTended(targetOf, states, |states| - 1);
    TendedIsAttended(targetOf, s, x);
  }

  // ---------------------------------------------------------------- histories in which something does

  lemma ReachedStart(targetOf: JobId -> PipelineId, faults: set<Fault>)
    ensures Reached(targetOf, faults, Fresh([], None, 0, []))
  {
    var s := Fresh([], None, 0, []);
    assert HistoryWith(targetOf, faults, [s]) && [s][|[s]| - 1] == s;
  }

  lemma ReachedNext(targetOf: JobId -> PipelineId, faults: set<Fault>, s: State, input: Input) returns (t: State)
    requires Reached(targetOf, faults, s) && Allowed(targetOf, s, input)
    requires FaultOf(s, input).Some? ==> FaultOf(s, input).value in faults
    ensures t == Step(targetOf, s, input) && Reached(targetOf, faults, t)
  {
    t := Step(targetOf, s, input);
    assert MoveWith(targetOf, faults, s, input, t);
    hide MoveWith, Step, Allowed, LogAimed;
    var states :| HistoryWith(targetOf, faults, states) && states[|states| - 1] == s;
    HistorySnoc(targetOf, faults, states, t);
    assert (states + [t])[|states + [t]| - 1] == t;
  }

  lemma HistorySnoc(targetOf: JobId -> PipelineId, faults: set<Fault>, states: seq<State>, t: State)
    requires HistoryWith(targetOf, faults, states) && NextWith(targetOf, faults, states[|states| - 1], t)
    ensures HistoryWith(targetOf, faults, states + [t])
  {
    hide NextWith, LogAimed;
    var next := (a: State, b: State) => NextWith(targetOf, faults, a, b);
    var all := states + [t];
    forall k | 0 <= k < |all| - 1 ensures next(all[k], all[k + 1]) {
      if k < |states| - 1 { assert next(states[k], states[k + 1]); }
    }
    assert all[0] == states[0];
  }

  /** The only write in the chain goes through, without a compaction. */
  lemma ReachedWrite(targetOf: JobId -> PipelineId, faults: set<Fault>, s: State, e: Event, owner: Owner) returns (t: State)
    requires Reached(targetOf, faults, s) && s.chain == [Append(e, owner)] && s.progress.Waiting?
    requires s.count + 1 < COMPACT_TRIGGER_EVENT_COUNT
    ensures Reached(targetOf, faults, t)
    ensures t == s.(log := s.log + [e], jobs := Applied(s.jobs, e), count := s.count + 1, chain := [], drains := t.drains)
    ensures t.drains == if owner.DrainOf? && owner.target in s.drains
                        then s.drains[owner.target := Told(s.drains[owner.target], true)] else s.drains
  {
    hide Applied, Reached;
    var s1 := ReachedNext(targetOf, faults, s, Write);
    t := ReachedNext(targetOf, faults, s1, Write);
  }

  function TheJob(targetOf: JobId -> PipelineId): Job {
    Job("j", "", targetOf("j"), Pending, None, 0, 0, None, None, None)
  }

  /** Nothing is going on but the one job that waits. */
  ghost predicate OneWaits(targetOf: JobId -> PipelineId, s: State) {
    s.jobs == [TheJob(targetOf)] && s.chain == [] && s.progress.Waiting? && s.drains == map[] && s.clock == 0
  }

  lemma ReachedEmpty(targetOf: JobId -> PipelineId, faults: set<Fault>) returns (t: State)
    ensures Reached(targetOf, faults, t)
    ensures t.jobs == [] && t.chain == [] && t.progress.Waiting? && t.drains == map[] && t.clock == 0 && t.count == 0
  {
    hide Reached;
    ReachedStart(targetOf, faults);
    var s := Fresh([], None, 0, []);
    assert Folded([]) == [] && Recovered([]) == [] && Pruned([]) == [];
    var s1 := ReachedNext(targetOf, faults, s, Write);
    var s2 := ReachedNext(targetOf, faults, s1, Write);
    t := ReachedNext(targetOf, faults, s2, Write);
  }

  lemma ReachedWaiting(targetOf: JobId -> PipelineId, faults: set<Fault>) returns (t: State)
    ensures Reached(targetOf, faults, t) && OneWaits(targetOf, t) && t.count == 1
  {
    hide Reached;
    var s := ReachedEmpty(targetOf, faults);
    var job := TheJob(targetOf);
    var s1 := ReachedNext(targetOf, faults, s, Dispatch(job));
    t := ReachedWrite(targetOf, faults, s1, Created(job), Nobody);
    assert Put([], job) == [job];
  }

  lemma OneJob(job: Job, e: Event)
    requires !e.Created? && e.jobId == job.jobId
    ensures Applied([job], e) == [Change(job, e)] && Position([job], job.jobId) == 0
  {
    assert [job][0 := Change(job, e)] == [Change(job, e)];
    PruneIdle([Change(job, e)]);
    hide Pruned;
  }

  /** The job is canceled and set waiting again: two more events have been counted. */
  lemma ReachedAgain(targetOf: JobId -> PipelineId, faults: set<Fault>, s: State) returns (t: State)
    requires Reached(targetOf, faults, s) && OneWaits(targetOf, s) && s.count + 2 < COMPACT_TRIGGER_EVENT_COUNT
    ensures Reached(targetOf, faults, t) && OneWaits(targetOf, t) && t.count == s.count + 2
  {
    var job := TheJob(targetOf);
    var cancel, retry := Cancel(0, "j"), RetryRequested("j");
    var canceled := Change(job, cancel);
    OneJob(job, cancel);
    OneJob(canceled, retry);
    hide Reached, Applied, Position;
    var s1 := ReachedNext(targetOf, faults, s, RequestCancel("j"));
    var s2 := ReachedWrite(targetOf, faults, s1, cancel, Nobody);
    var s3 := ReachedNext(targetOf, faults, s2, RequestRetry("j"));
    t := ReachedWrite(targetOf, faults, s3, retry, Nobody);
  }

  lemma {:induction false} ReachedCount(targetOf: JobId -> PipelineId, faults: set<Fault>, n: nat) returns (t: State)
    requires 2 * n + 1 < COMPACT_TRIGGER_EVENT_COUNT
    ensures Reached(targetOf, faults, t) && OneWaits(targetOf, t) && t.count == 2 * n + 1
    decreases n
  {
    hide Reached, OneWaits;
    if n == 0 {
      t := ReachedWaiting(targetOf, faults);
    } else {
      var s := ReachedCount(targetOf, faults, n - 1);
      t := ReachedAgain(targetOf, faults, s);
    }
  }

  /** A drain takes the job and enqueues the event that sets it running. */
  lemma ReachedStarting(targetOf: JobId -> PipelineId, faults: set<Fault>, s: State) returns (t: State)
    requires Reached(targetOf, faults, s) && OneWaits(targetOf, s)
    ensures var job := TheJob(targetOf);
            && Reached(targetOf, faults, t) && t.jobs == [job] && t.progress.Waiting? && t.count == s.count
            && t.chain == [Append(Running(0, "j", "r"), DrainOf(targetOf("j")))]
            && t.drains == map[targetOf("j") := Starting(job, "r", None)]
  {
    var job := TheJob(targetOf);
    var pending, active := JobsOf(s.jobs, targetOf("j"), Pending), JobsOf(s.jobs, targetOf("j"), Active);
    assert s.jobs[1..] == [];
    assert pending == [job] && active == [];
    hide Reached, JobsOf;
    t := ReachedNext(targetOf, faults, s, RequestDrain(targetOf("j"), false, true, "r"));
  }

  function TheRunning(targetOf: JobId -> PipelineId): Job { Change(TheJob(targetOf), Running(0, "j", "r")) }

  /** The job runs, and its drain executes it. */
  ghost predicate OneRuns(targetOf: JobId -> PipelineId, s: State) {
    && s.jobs == [TheRunning(targetOf)] && s.chain == [] && s.progress.Waiting?
    && s.drains == map[targetOf("j") := Executing(TheJob(targetOf), "r")]
  }

  lemma ReachedRunning(targetOf: JobId -> PipelineId, faults: set<Fault>) returns (t: State)
    ensures Reached(targetOf, faults, t) && OneRuns(targetOf, t)
  {
    var target, job, e := targetOf("j"), TheJob(targetOf), Running(0, "j", "r");
    OneJob(job, e);
    hide Reached, Applied;
    var s := ReachedWaiting(targetOf, faults);
    var s1 := ReachedStarting(targetOf, faults, s);
    var s2 := ReachedWrite(targetOf, faults, s1, e, DrainOf(target));
    t := ReachedNext(targetOf, faults, s2, Advance(target));
  }

  lemma LeftAlone(targetOf: JobId -> PipelineId, faults: set<Fault>, s: State)
    requires Reached(targetOf, faults, s)
    requires s.jobs == [TheRunning(targetOf)] && s.chain == [] && s.drains == map[targetOf("j") := Over]
    ensures CanBlock(targetOf, faults)
  {
    hide Reached;
    assert TheRunning(targetOf) in s.jobs;
    assert Unattended(s, TheRunning(targetOf));
  }

  lemma ThrowingBlocks(targetOf: JobId -> PipelineId, faults: set<Fault>)
    requires ExecutionThrows in faults
    ensures CanBlock(targetOf, faults)
  {
    hide Reached;
    var s := ReachedRunning(targetOf, faults);
    var t := ReachedNext(targetOf, faults, s, RunEnds(targetOf("j"), Threw));
    var x := TheRunning(targetOf);
    assert x in s.jobs && s.drains - {targetOf("j")} == map[];
    ThrowLeavesUnattended(s, targetOf("j"), x);
    assert Unattended(t, x);
    assert CanBlock(targetOf, faults);
  }

  lemma LookupBlocks(targetOf: JobId -> PipelineId, faults: set<Fault>)
    requires LookupThrows in faults
    ensures CanBlock(targetOf, faults)
  {
    hide Reached, CanBlock;
    var s := ReachedRunning(targetOf, faults);
    var s1 := ReachedNext(targetOf, faults, s, RunEnds(targetOf("j"), HardFailed));
    var t := ReachedNext(targetOf, faults, s1, LinkFound(targetOf("j"), false));
    LeftAlone(targetOf, faults, t);
  }

  lemma UnwrittenBlocks(targetOf: JobId -> PipelineId, faults: set<Fault>)
    requires EndUnwritten in faults
    ensures CanBlock(targetOf, faults)
  {
    hide Reached, CanBlock;
    var s := ReachedRunning(targetOf, faults);
    var s1 := ReachedNext(targetOf, faults, s, RunEnds(targetOf("j"), RanWell));
    var s2 := ReachedNext(targetOf, faults, s1, WriteFails);
    var t := ReachedNext(targetOf, faults, s2, Advance(targetOf("j")));
    LeftAlone(targetOf, faults, t);
  }

  /** The event that sets the job running is the one with which the log is compacted. */
  lemma ReachedCompacting(targetOf: JobId -> PipelineId, faults: set<Fault>) returns (t: State)
    ensures Reached(targetOf, faults, t) && t.progress.Compacting? && t.jobs == [TheRunning(targetOf)]
    ensures t.chain == [Append(Running(0, "j", "r"), DrainOf(targetOf("j")))]
    ensures t.drains == map[targetOf("j") := Starting(TheJob(targetOf), "r", None)]
  {
    OneJob(TheJob(targetOf), Running(0, "j", "r"));
    hide Reached, Applied, OneWaits;
    var s := ReachedCount(targetOf, faults, 999);
    var s1 := ReachedStarting(targetOf, faults, s);
    var s2 := ReachedNext(targetOf, faults, s1, Write);
    t := ReachedNext(targetOf, faults, s2, Write);
  }

  lemma UnconfirmedBlocks(targetOf: JobId -> PipelineId, faults: set<Fault>)
    requires StartUnconfirmed in faults
    ensures CanBlock(targetOf, faults)
  {
    hide Reached, CanBlock;
    var s := ReachedCompacting(targetOf, faults);
    var s1 := ReachedNext(targetOf, faults, s, WriteFails);
    var t := ReachedNext(targetOf, faults, s1, Advance(targetOf("j")));
    LeftAlone(targetOf, faults, t);
  }

  /**
   * Jobs can be left running with nobody attending to them exactly if one of the four can go wrong: without them
   * no history leaves such a job, and each of them alone is enough for one that does.
   */
  lemma BlocksExactly(targetOf: JobId -> PipelineId, faults: set<Fault>)
    ensures CanBlock(targetOf, faults) <==> faults != {}
  {
    hide Reached, Unattended, CanBlock;
    if ExecutionThrows in faults {
      ThrowingBlocks(targetOf, faults);
    } else if LookupThrows in faults {
      LookupBlocks(targetOf, faults);
    } else if EndUnwritten in faults {
      UnwrittenBlocks(targetOf, faults);
    } else if StartUnconfirmed in faults {
      UnconfirmedBlocks(targetOf, faults);
    } else {
      OnlyFour(faults);
      NoFaultNoBlock(targetOf);
    }
  }

  lemma OnlyFour(faults: set<Fault>)
    requires ExecutionThrows !in faults && LookupThrows !in faults && EndUnwritten !in faults && StartUnconfirmed !in faults
    ensures faults == {}
  {
    forall f | f in faults ensures false {
      match f
      case ExecutionThrows =>
      case LookupThrows =>
      case StartUnconfirmed =>
      case EndUnwritten =>
    }
  }

  lemma NoFaultNoBlock(targetOf: JobId -> PipelineId)
    ensures !CanBlock(targetOf, {})
  {
    hide Reached, Unattended;
    forall s, x | Reached(targetOf, {}, s) ensures !Unattended(s, x) { NeverUnattended(targetOf, s, x); }
  }
}
