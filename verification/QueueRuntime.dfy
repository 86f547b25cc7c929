/** The inbound queue and its drainer as objects: each method is one stretch between two awaits. */
module QueueRuntime {
  import opened Common
  import opened InboundQueue
  import opened QueueProcess

  class QueueProcessor {
    const store: QueueStore
    var log: seq<Event>
    var tmp: Option<seq<Event>>
    var loaded: bool
    var chain: seq<Op>
    var progress: Progress
    var drains: map<PipelineId, Stage>
    var clock: int
    ghost var starts: seq<Job>

    ghost function Now(): State
      reads this, store
    {
      State(log, tmp, store.jobs, loaded, chain, progress, store.eventsSinceCompact, drains, clock, starts)
    }

    constructor (log: seq<Event>, tmp: Option<seq<Event>>, clock: int)
      ensures fresh(store) && Now() == QueueProcess.Fresh(log, tmp, clock, [])
    {
      store := new QueueStore();
      this.log, this.tmp, this.clock := log, tmp, clock;
      loaded, chain, progress, drains, starts := false, [Initialize], Waiting, map[], [];
    }

    method AppendEvent(event: Event, owner: Owner)
      modifies this`chain
      ensures Now() == Enqueue(old(Now()), event, owner)
    {
      chain := chain + [Append(event, owner)];
    }

    method CancelJob(jobId: JobId) returns (answer: Answer)
      requires Unique(store.jobs)
      modifies this`chain
      ensures answer == CancelAnswer(store.jobs, jobId, clock) && Now() == EnqueueAnswer(old(Now()), answer)
    {
      answer := store.CancelJob(jobId, clock);
      if answer.Appended? { AppendEvent(answer.event, Nobody); }
    }

    method RetryJob(jobId: JobId) returns (answer: Answer)
      requires Unique(store.jobs)
      modifies this`chain
      ensures answer == RetryAnswer(store.jobs, jobId) && Now() == EnqueueAnswer(old(Now()), answer)
    {
      answer := store.RetryJob(jobId);
      if answer.Appended? { AppendEvent(answer.event, Nobody); }
    }

    /** A request while a drain of the target is under way changes nothing. */
    method RequestDrainInboundQueue(target: PipelineId, busy: bool, known: bool, runId: string)
      modifies this`chain, this`drains, this`starts
      ensures Now() == if target in old(drains) then old(Now()) else DrainOne(old(Now()), target, busy, known, runId)
    {
      if target in drains { return; }
      if busy {
        drains := drains[target := Over];
        return;
      }
      var pending := JobsOf(store.jobs, target, Pending);
      if |pending| == 0 || JobsOf(store.jobs, target, Active) != [] {
        drains := drains[target := Over];
        return;
      }
      var job := pending[0];
      if !known {
        drains := drains[target := LookingUp(job, None, "pipeline_not_found")];
        return;
      }
      AppendEvent(Running(clock, job.jobId, runId), DrainOf(target));
      drains := drains[target := Starting(job, runId, None)];
      starts := starts + [job];
    }

    method AfterExecution(target: PipelineId, how: RunEnd)
      requires target in drains && drains[target].Executing?
      modifies this
      ensures Now() == AfterRun(old(Now()), target, how)
    {
      var job, runId := drains[target].job, drains[target].runId;
      if how.Threw? {
        drains := drains[target := Over];
      } else if how.RanWell? && runId != "" {
        AppendEvent(Success(clock, job.jobId), DrainOf(target));
        drains := drains[target := Ending(job, None)];
      } else {
        drains := drains[target := LookingUp(job, Some(runId), if how.HardFailed? then "pipeline_execution_failed" else "unknown_error")];
      }
    }

    method EndHead(ok: bool)
      requires chain != []
      modifies this
      ensures Now() == EndWrite(old(Now()), ok)
    {
      var op := chain[0];
      chain, progress := chain[1..], Waiting;
      if op.Append? && op.owner.DrainOf? && op.owner.target in drains {
        drains := drains[op.owner.target := Told(drains[op.owner.target], ok)];
      }
    }

    method Compact()
      requires Unique(store.jobs)
      modifies this
      ensures Now() == old(Now()).(tmp := Some(Lines(old(store.jobs))), progress := Written)
    {
      var lines := store.CompactLines();
      tmp, progress := Some(lines), Written;
    }

    /** The next stretch of the write at the head of the chain. */
    method AdvanceHead()
      requires chain != [] && Unique(store.jobs)
      requires progress.Persisted? ==> chain[0].Append?
      requires progress.Written? ==> tmp.Some?
      modifies this, store
      ensures Now() == WriteStep(old(Now()))
    {
      match progress
      case Waiting =>
        if chain[0].Initialize? {
          store.Replay(log);
          store.PruneCompletedJobs();
          loaded, progress := true, Compacting;
        } else {
          log, progress := log + [chain[0].event], Persisted;
        }
      case Persisted =>
        store.ApplyEvent(chain[0].event);
        store.eventsSinceCompact := store.eventsSinceCompact + 1;
        if store.eventsSinceCompact >= COMPACT_TRIGGER_EVENT_COUNT {
          progress := Compacting;
        } else {
          EndHead(true);
        }
      case Compacting => Compact();
      case Written =>
        log, tmp := tmp.value, None;
        store.eventsSinceCompact := 0;
        EndHead(true);
    }
  }
}
