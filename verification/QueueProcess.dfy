/**
 * The process around the inbound queue: dispatches, cancels, retries, drains, the chain of writes,
 * and crashes.  Whatever runs between two awaits is one step; writes run one at a time, in order.
 */
module QueueProcess {
  import opened Common
  import opened InboundQueue
  import opened Runs

  /** Who awaits the end of a write. */
  datatype Owner = Nobody | DrainOf(target: PipelineId)

  datatype Op = Append(event: Event, owner: Owner) | Initialize

  /** How far the write at the head of the chain has come. */
  datatype Progress = Waiting | Persisted | Compacting | Written

  /** Where the drain of one target stands; `told` is the outcome of the write it awaits. */
  datatype Stage =
    | Starting(job: Job, runId: string, told: Option<bool>)
    | Executing(job: Job, runId: string)
    | LookingUp(job: Job, failedRunId: Option<string>, error: string)
    | Ending(job: Job, told: Option<bool>)
    | Over

  /** `log` and `tmp` are on disk and survive a crash; `starts` is the history of started jobs. */
  datatype State = State(
    log: seq<Event>,
    tmp: Option<seq<Event>>,
    jobs: seq<Job>,
    loaded: bool,
    chain: seq<Op>,
    progress: Progress,
    count: nat,
    drains: map<PipelineId, Stage>,
    clock: int,
    starts: seq<Job>)

  datatype RunEnd = RanWell | HardFailed | Threw

  datatype Input =
    | Tick(now: int)
    | Dispatch(job: Job)
    | RequestCancel(jobId: JobId)
    | RequestRetry(jobId: JobId)
    | RequestDrain(target: PipelineId, busy: bool, known: bool, runId: string)
    | Advance(target: PipelineId)
    | RunEnds(target: PipelineId, how: RunEnd)
    | LinkFound(target: PipelineId, ok: bool)
    | Settle(target: PipelineId)
    | Write
    | WriteFails
    | Crash

  /** A process that has just started: the queue is about to read its log. */
  function Fresh(log: seq<Event>, tmp: Option<seq<Event>>, clock: int, starts: seq<Job>): State {
    State(log, tmp, [], false, [Initialize], Waiting, 0, map[], clock, starts)
  }

  function Enqueue(s: State, event: Event, owner: Owner): State {
    s.(chain := s.chain + [Append(event, owner)])
  }

  function EnqueueAnswer(s: State, answer: Answer): State {
    if answer.Appended? then Enqueue(s, answer.event, Nobody) else s
  }

  // ---------------------------------------------------------------- drains

  /** A drain up to its first await. */
  function DrainOne(s: State, target: PipelineId, busy: bool, known: bool, runId: string): State {
    var pending := JobsOf(s.jobs, target, Pending);
    if busy || pending == [] || JobsOf(s.jobs, target, Active) != [] then
      s.(drains := s.drains[target := Over])
    else if !known then
      s.(drains := s.drains[target := LookingUp(pending[0], None, "pipeline_not_found")])
    else
      var next := Enqueue(s, Running(s.clock, pending[0].jobId, runId), DrainOf(target));
      next.(drains := s.drains[target := Starting(pending[0], runId, None)], starts := s.starts + [pending[0]])
  }

  /** A drain starts a job exactly when its target may start one, and then the one created first. */
  ghost predicate MayStart(s: State, target: PipelineId, busy: bool, known: bool) {
    && !busy && known
    && (exists x :: x in s.jobs && x.toPipelineId == target && x.status == Pending)
    && (forall x :: x in s.jobs && x.toPipelineId == target ==> x.status != Active)
  }

  lemma DrainStartsExactly(s: State, target: PipelineId, busy: bool, known: bool, runId: string)
    ensures var t := DrainOne(s, target, busy, known, runId);
            && (t.starts != s.starts <==> MayStart(s, target, busy, known))
            && (t.starts == s.starts ==> t.chain == s.chain)
            && (t.starts != s.starts ==>
                  exists job :: StartsFirst(s, target, job) && t.starts == s.starts + [job]
                             && t.chain == s.chain + [Append(Running(s.clock, job.jobId, runId), DrainOf(target))])
  {
    var pending := JobsOf(s.jobs, target, Pending);
    var active := JobsOf(s.jobs, target, Active);
    assert pending != [] ==> pending[0] in pending;
    assert active != [] ==> active[0] in active;
    if pending != [] {
      FirstOfJobs(s.jobs, target);
      assert StartsFirst(s, target, pending[0]);
    }
  }

  /** A pending job of the target that comes before all others. */
  ghost predicate StartsFirst(s: State, target: PipelineId, job: Job) {
    && job in s.jobs && job.toPipelineId == target && job.status == Pending
    && forall x :: x in s.jobs && x.toPipelineId == target && x.status == Pending && x != job ==> ComesBefore(job, x)
  }

  lemma FirstOfJobs(jobs: seq<Job>, target: PipelineId)
    ensures var pending := JobsOf(jobs, target, Pending);
            pending != [] ==> forall x :: x in pending && x != pending[0] ==> ComesBefore(pending[0], x)
  {
    var pending := JobsOf(jobs, target, Pending);
    JobsOfSorted(jobs, target, Pending);
    hide JobsOf, ComesBefore;
    forall x | x in pending && x != pending[0] ensures ComesBefore(pending[0], x) {
      var k :| 0 <= k < |pending| && pending[k] == x;
    }
  }

  /** A drain goes on after the write it awaited. */
  function AfterWrite(stage: Stage): Stage {
    match stage
    case Starting(job, runId, Some(ok)) => if ok then Executing(job, runId) else Over
    case Ending(_, Some(_)) => Over
    case _ => stage
  }

  function AfterRun(s: State, target: PipelineId, how: RunEnd): State
    requires target in s.drains && s.drains[target].Executing?
  {
    var job, runId := s.drains[target].job, s.drains[target].runId;
    match how
    case RanWell =>
      if runId == "" then s.(drains := s.drains[target := LookingUp(job, Some(runId), "unknown_error")])
      else Enqueue(s, Success(s.clock, job.jobId), DrainOf(target)).(drains := s.drains[target := Ending(job, None)])
    case HardFailed => s.(drains := s.drains[target := LookingUp(job, Some(runId), "pipeline_execution_failed")])
    case Threw => s.(drains := s.drains[target := Over])
  }

  function AfterLookup(s: State, target: PipelineId, ok: bool): State
    requires target in s.drains && s.drains[target].LookingUp?
  {
    var stage := s.drains[target];
    if ok then
      Enqueue(s, Failure(s.clock, stage.job.jobId, stage.failedRunId, stage.error), DrainOf(target))
        .(drains := s.drains[target := Ending(stage.job, None)])
    else s.(drains := s.drains[target := Over])
  }

  // ---------------------------------------------------------------- writes

  function Told(stage: Stage, ok: bool): Stage {
    match stage
    case Starting(job, runId, _) => Starting(job, runId, Some(ok))
    case Ending(job, _) => Ending(job, Some(ok))
    case _ => stage
  }

  /** The write at the head of the chain is over, and whoever awaits it learns how it went. */
  function EndWrite(s: State, ok: bool): State
    requires s.chain != []
  {
    var op := s.chain[0];
    var drains :=
      if op.Append? && op.owner.DrainOf? && op.owner.target in s.drains
      then s.drains[op.owner.target := Told(s.drains[op.owner.target], ok)]
      else s.drains;
    s.(chain := s.chain[1..], progress := Waiting, drains := drains)
  }

  function WriteStep(s: State): State
    requires s.chain != []
  {
    match s.progress
    case Waiting =>
      (match s.chain[0]
       case Append(event, _) => s.(log := s.log + [event], progress := Persisted)
       case Initialize => s.(jobs := Pruned(Recovered(Folded(s.log))), loaded := true, progress := Compacting))
    case Persisted =>
      (match s.chain[0]
       case Append(event, _) =>
         var next := s.(jobs := Applied(s.jobs, event), count := s.count + 1);
         if next.count >= COMPACT_TRIGGER_EVENT_COUNT then next.(progress := Compacting) else EndWrite(next, true)
       case Initialize => s)
    case Compacting => s.(tmp := Some(Lines(s.jobs)), progress := Written)
    case Written =>
      if s.tmp.None? then s
      else EndWrite(s.(log := s.tmp.value, tmp := None, count := 0), true)
  }

  // ---------------------------------------------------------------- steps

  /** `targetOf` fixes the target of every job: its id names link and output, and an output is dispatched once. */
  predicate Allowed(targetOf: JobId -> PipelineId, s: State, input: Input) {
    match input
    case Dispatch(job) =>
      && job == Job(job.jobId, job.linkId, targetOf(job.jobId), Pending, None, 0, s.clock, None, None, None)
      && Position(s.jobs, job.jobId) == |s.jobs|
    case Advance(target) =>
      target in s.drains && (s.drains[target].Starting? || s.drains[target].Ending?) && s.drains[target].told.Some?
    case RunEnds(target, _) => target in s.drains && s.drains[target].Executing?
    case LinkFound(target, _) => target in s.drains && s.drains[target].LookingUp?
    case Settle(target) => target in s.drains && s.drains[target].Over?
    case Write => s.chain != []
    case WriteFails => s.chain != [] && s.chain[0].Append? && !s.progress.Persisted?
    case _ => true
  }

  function Step(targetOf: JobId -> PipelineId, s: State, input: Input): State
    requires Allowed(targetOf, s, input)
  {
    match input
    case Tick(now) => s.(clock := now)
    case Dispatch(job) => Enqueue(s, Created(job), Nobody)
    case RequestCancel(jobId) => EnqueueAnswer(s, CancelAnswer(s.jobs, jobId, s.clock))
    case RequestRetry(jobId) => EnqueueAnswer(s, RetryAnswer(s.jobs, jobId))
    case RequestDrain(target, busy, known, runId) =>
      if target in s.drains then s else DrainOne(s, target, busy, known, runId)
    case Advance(target) => s.(drains := s.drains[target := AfterWrite(s.drains[target])])
    case RunEnds(target, how) => AfterRun(s, target, how)
    case LinkFound(target, ok) => AfterLookup(s, target, ok)
    case Settle(target) => s.(drains := s.drains - {target})
    case Write => WriteStep(s)
    case WriteFails => EndWrite(s, false)
    case Crash => Fresh(s.log, s.tmp, s.clock, s.starts)
  }

  ghost predicate Next(targetOf: JobId -> PipelineId, a: State, b: State) {
    exists input :: Allowed(targetOf, a, input) && b == Step(targetOf, a, input)
  }

  /** A history that starts with any log on disk. */
  ghost predicate IsHistory(targetOf: JobId -> PipelineId, states: seq<State>) {
    && Linked(states, (a: State, b: State) => Next(targetOf, a, b))
    && states[0] == Fresh(states[0].log, states[0].tmp, states[0].clock, [])
  }
}
