/** What every drain is given: the workflow, the scheduler's settings, and a look at what may run. */
module Scheduling {
  import opened Common
  import opened Workflow
  import opened WorkflowGraph
  import opened RunModel
  import opened Readiness

  /**
   * How the agent run of a node ends: no session can be had for it, it succeeds, or it fails with a
   * result that may halt the pipeline and may carry an envelope.
   */
  datatype Verdict = NoSession | Succeed | Fail(halts: bool, hasEnvelope: bool)

  /** The scheduler settings are the workflow's, kept apart so that drains of one graph can be compared. */
  datatype Config = Config(
    g: Graph, scheduler: Scheduler, itemKeys: seq<string>, manualTick: bool, verdicts: map<Id, Verdict>)

  datatype TaskResult = TaskOk | TaskFailed(halts: bool)

  datatype ExitReason = LimitReached | NothingLeft | TickDone

  datatype Phase = Racing | WaitingForAll | Exited(why: ExitReason) | Crashed

  function MaxConcurrency(cfg: Config): (r: nat)
    ensures r >= 1
  {
    var n := cfg.scheduler.maxConcurrency;
    if n < 1 then 1 else n
  }

  function Limit(cfg: Config): int { cfg.scheduler.maxGlobalIterations }

  function MaxAttempts(g: Graph, id: Id): (r: int)
    ensures r >= 1
  {
    if NodeById(g, id).Some? && NodeById(g, id).value.retryPolicy.maxAttempts > 1
    then NodeById(g, id).value.retryPolicy.maxAttempts else 1
  }

  function VerdictOf(cfg: Config, id: Id): Verdict {
    if id in cfg.verdicts then cfg.verdicts[id] else Succeed
  }

  /** A readiness pass and the candidates it leaves; None when the pass raises. */
  datatype Found = Found(run: Run, candidates: seq<Candidate>)

  type Look = Run -> Option<Found>

  function LookAt(cfg: Config, now: int): Look {
    (run: Run) =>
      match ReadinessPass(cfg.g, cfg.itemKeys, now, run)
      case Aborted => None
      case Completed(after) => Some(Found(after, Candidates(cfg.g, after)))
  }
}
