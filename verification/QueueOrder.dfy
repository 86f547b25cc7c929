/** With a clock that never goes back and no retries, the jobs of a target start in the order of their creation. */
module QueueOrder {
  import opened Common
  import opened InboundQueue
  import opened Runs
  import opened QueueProcess
  import opened QueueRecovery
  import opened QueueExclusion

  /** The jobs that the next write works on: those of the log while it is still to be read or written back. */
  function Base(s: State): seq<Job> {
    if Initializing(s) then Folded(s.log) else s.jobs
  }

  predicate WillRun(op: Op, id: JobId) { op.Append? && op.event.Running? && op.event.jobId == id }

  predicate WillCreate(op: Op) { op.Append? && op.event.Created? }

  /** A job that may yet start, or whose start is under way. */
  ghost predicate Startable(todo: seq<Op>, x: Job) {
    x.status in {Pending, Active} || exists op :: op in todo && WillRun(op, x.jobId)
  }

  predicate NotBefore(a: Job, x: Job) { a.toPipelineId == x.toPipelineId ==> a.createdAt <= x.createdAt }

  /** No job that may yet start was created before one of its target that has started. */
  ghost predicate OrderKept(starts: seq<Job>, jobs: seq<Job>, todo: seq<Op>) {
    && (forall a, x :: a in starts && x in jobs && Startable(todo, x) ==> NotBefore(a, x))
    && (forall a, op :: a in starts && op in todo && WillCreate(op) ==> NotBefore(a, op.event.job))
  }

  /** Creation times follow the order of the chain and stay behind the clock. */
  ghost predicate ClockKept(clock: int, starts: seq<Job>, jobs: seq<Job>, todo: seq<Op>) {
    && (forall a :: a in starts ==> a.createdAt <= clock)
    && (forall x :: x in jobs ==> x.createdAt <= clock)
    && (forall op :: op in todo && WillCreate(op) ==> op.event.job.createdAt <= clock)
    && (forall x, op :: x in jobs && op in todo && WillCreate(op) ==> x.createdAt <= op.event.job.createdAt)
    && (forall i, j :: 0 <= i < j < |todo| && WillCreate(todo[i]) && WillCreate(todo[j]) ==>
          todo[i].event.job.createdAt <= todo[j].event.job.createdAt)
  }

  ghost predicate NoRetries(chain: seq<Op>) {
    forall op :: op in chain && op.Append? ==> !op.event.RetryRequested?
  }

  ghost predicate InOrder(starts: seq<Job>) {
    forall i, j :: 0 <= i < j < |starts| ==> NotBefore(starts[i], starts[j])
  }

  ghost predicate Kept(clock: int, starts: seq<Job>, jobs: seq<Job>, todo: seq<Op>) {
    OrderKept(starts, jobs, todo) && ClockKept(clock, starts, jobs, todo)
  }

  ghost predicate Orderly(targetOf: JobId -> PipelineId, s: State) {
    && Exclusive(targetOf, s)
    && Kept(s.clock, s.starts, Base(s), Todo(s))
    && NoRetries(s.chain)
    && InOrder(s.starts)
  }

  // ---------------------------------------------------------------- events and recovery keep the order

  lemma ChangeKeepsIdentity(x: Job, e: Event)
    requires !e.Created?
    ensures Change(x, e).jobId == x.jobId && Change(x, e).toPipelineId == x.toPipelineId && Change(x, e).createdAt == x.createdAt
  {
  }

  lemma StillStartable(op: Op, rest: seq<Op>, x: Job)
    requires Startable(rest, x)
    ensures Startable([op] + rest, x)
  {
    if o :| o in rest && WillRun(o, x.jobId) { assert o in [op] + rest; }
  }

  /** A job of the new snapshot is bounded by the old snapshot or by the event. */
  lemma AppliedBounded(a: Job, jobs: seq<Job>, op: Op, rest: seq<Op>, x: Job)
    requires Unique(jobs) && op.Append? && !op.event.RetryRequested?
    requires forall y :: y in jobs && Startable([op] + rest, y) ==> NotBefore(a, y)
    requires WillCreate(op) ==> NotBefore(a, op.event.job)
    requires x in Applied(jobs, op.event) && Startable(rest, x)
    ensures NotBefore(a, x)
  {
    var e := op.event;
    AppliedOrigin(jobs, e, x);
    hide Applied, Unique, Startable;
    if x in jobs {
      StillStartable(op, rest, x);
    } else if !(e.Created? && x == e.job) {
      var y :| y in jobs && y.jobId == e.jobId && x == Change(y, e);
      ChangeKeepsIdentity(y, e);
      ChangedStartable(y, op, rest);
    }
  }

  lemma ChangedStartable(y: Job, op: Op, rest: seq<Op>)
    requires op.Append? && !op.event.Created? && !op.event.RetryRequested? && y.jobId == op.event.jobId
    requires Startable(rest, Change(y, op.event))
    ensures Startable([op] + rest, y)
  {
    if op.event.Running? {
      assert op in [op] + rest && WillRun(op, y.jobId);
    } else {
      var o :| o in rest && WillRun(o, y.jobId);
      assert o in [op] + rest;
    }
  }

  lemma AppliedOrder(starts: seq<Job>, jobs: seq<Job>, op: Op, rest: seq<Op>)
    requires Unique(jobs) && op.Append? && !op.event.RetryRequested? && OrderKept(starts, jobs, [op] + rest)
    ensures OrderKept(starts, Applied(jobs, op.event), rest)
  {
    assert op in [op] + rest;
    forall a, x | a in starts && x in Applied(jobs, op.event) && Startable(rest, x) ensures NotBefore(a, x) {
      AppliedBounded(a, jobs, op, rest, x);
    }
    forall o | o in rest ensures o in [op] + rest {}
  }

  /** A job of the new snapshot is the created one, or was created when some job of the old one was. */
  lemma DateOrigin(jobs: seq<Job>, e: Event, x: Job) returns (y: Job)
    requires Unique(jobs) && x in Applied(jobs, e)
    ensures (e.Created? && x == e.job) || (y in jobs && y.createdAt == x.createdAt)
  {
    AppliedOrigin(jobs, e, x);
    hide Applied, Unique;
    y := x;
    if x !in jobs && !e.Created? {
      y :| y in jobs && y.jobId == e.jobId && x == Change(y, e);
      ChangeKeepsIdentity(y, e);
    }
  }

  lemma AppliedClock(clock: int, starts: seq<Job>, jobs: seq<Job>, op: Op, rest: seq<Op>)
    requires Unique(jobs) && op.Append? && ClockKept(clock, starts, jobs, [op] + rest)
    ensures ClockKept(clock, starts, Applied(jobs, op.event), rest)
  {
    var todo := [op] + rest;
    assert op in todo;
    forall o | o in rest ensures o in todo {}
    hide Applied, Unique;
    forall x | x in Applied(jobs, op.event)
      ensures x.createdAt <= clock
      ensures forall o :: o in rest && WillCreate(o) ==> x.createdAt <= o.event.job.createdAt
    {
      var y := DateOrigin(jobs, op.event, x);
      if WillCreate(op) && x == op.event.job { HeadFirst(clock, starts, jobs, op, rest); }
    }
    TailClock(clock, starts, jobs, op, rest);
  }

  lemma HeadFirst(clock: int, starts: seq<Job>, jobs: seq<Job>, op: Op, rest: seq<Op>)
    requires ClockKept(clock, starts, jobs, [op] + rest) && WillCreate(op)
    ensures forall o :: o in rest && WillCreate(o) ==> op.event.job.createdAt <= o.event.job.createdAt
  {
    var todo := [op] + rest;
    forall o | o in rest && WillCreate(o) ensures op.event.job.createdAt <= o.event.job.createdAt {
      var k :| 0 <= k < |rest| && rest[k] == o;
      assert todo[0] == op && todo[k + 1] == o;
    }
  }

  lemma TailClock(clock: int, starts: seq<Job>, jobs: seq<Job>, op: Op, rest: seq<Op>)
    requires ClockKept(clock, starts, jobs, [op] + rest)
    ensures ClockKept(clock, starts, jobs, rest)
  {
    var todo := [op] + rest;
    forall o | o in rest ensures o in todo {}
    forall i, j | 0 <= i < j < |rest| && WillCreate(rest[i]) && WillCreate(rest[j])
      ensures rest[i].event.job.createdAt <= rest[j].event.job.createdAt
    {
      assert todo[i + 1] == rest[i] && todo[j + 1] == rest[j];
    }
  }

  lemma TailOrder(starts: seq<Job>, jobs: seq<Job>, op: Op, rest: seq<Op>)
    requires OrderKept(starts, jobs, [op] + rest)
    ensures OrderKept(starts, jobs, rest)
  {
    forall o | o in rest ensures o in [op] + rest {}
    forall x | x in jobs && Startable(rest, x) ensures Startable([op] + rest, x) { StillStartable(op, rest, x); }
  }

  lemma RecoveredOrigin(jobs: seq<Job>, x: Job) returns (y: Job)
    requires x in Pruned(Recovered(jobs))
    ensures y in jobs && x == RecoveredJob(y)
  {
    assert x in Recovered(jobs);
    var k :| 0 <= k < |jobs| && x == RecoveredJob(jobs[k]);
    y := jobs[k];
  }

  ghost predicate Recovering(jobs: seq<Job>, x: Job) {
    exists y :: y in jobs && x == RecoveredJob(y)
  }

  lemma ReadOrder(starts: seq<Job>, jobs: seq<Job>, after: seq<Job>, todo: seq<Op>)
    requires OrderKept(starts, jobs, todo) && forall x :: x in after ==> Recovering(jobs, x)
    ensures OrderKept(starts, after, todo)
  {
    forall a, x | a in starts && x in after && Startable(todo, x) ensures NotBefore(a, x) {
      assert Recovering(jobs, x);
      var y :| y in jobs && x == RecoveredJob(y);
      assert Startable(todo, y);
    }
  }

  lemma ReadClock(clock: int, starts: seq<Job>, jobs: seq<Job>, after: seq<Job>, todo: seq<Op>)
    requires ClockKept(clock, starts, jobs, todo) && forall x :: x in after ==> Recovering(jobs, x)
    ensures ClockKept(clock, starts, after, todo)
  {
    forall x | x in after
      ensures x.createdAt <= clock
      ensures forall op :: op in todo && WillCreate(op) ==> x.createdAt <= op.event.job.createdAt
    {
      assert Recovering(jobs, x);
    }
  }

  /** Reading the log back keeps the order. */
  lemma ReadKept(clock: int, starts: seq<Job>, jobs: seq<Job>, todo: seq<Op>)
    requires Kept(clock, starts, jobs, todo)
    ensures Kept(clock, starts, Pruned(Recovered(jobs)), todo)
  {
    var after := Pruned(Recovered(jobs));
    forall x | x in after ensures Recovering(jobs, x) { var y := RecoveredOrigin(jobs, x); }
    ReadOrder(starts, jobs, after, todo);
    ReadClock(clock, starts, jobs, after, todo);
  }

  // ---------------------------------------------------------------- writes and crashes

  lemma DropHead(clock: int, starts: seq<Job>, jobs: seq<Job>, todo: seq<Op>)
    requires Kept(clock, starts, jobs, todo) && todo != []
    ensures Kept(clock, starts, jobs, todo[1..])
  {
    assert todo == [todo[0]] + todo[1..];
    TailOrder(starts, jobs, todo[0], todo[1..]);
    TailClock(clock, starts, jobs, todo[0], todo[1..]);
  }

  lemma ApplyHead(clock: int, starts: seq<Job>, jobs: seq<Job>, todo: seq<Op>)
    requires Kept(clock, starts, jobs, todo) && todo != [] && Unique(jobs)
    requires todo[0].Append? && !todo[0].event.RetryRequested?
    ensures Kept(clock, starts, Applied(jobs, todo[0].event), todo[1..])
  {
    assert todo == [todo[0]] + todo[1..];
    AppliedOrder(starts, jobs, todo[0], todo[1..]);
    AppliedClock(clock, starts, jobs, todo[0], todo[1..]);
  }

  /** The log on disk is in order too, so that a restart finds it so. */
  lemma DiskKept(targetOf: JobId -> PipelineId, s: State)
    requires Orderly(targetOf, s)
    ensures Kept(s.clock, s.starts, Folded(s.log), [Initialize])
  {
    if !Initializing(s) && s.progress.Persisted? {
      assert s.chain[0] in s.chain;
      ApplyHead(s.clock, s.starts, s.jobs, s.chain);
      NothingTodo(s.clock, s.starts, Folded(s.log), s.chain[1..]);
    } else {
      NothingTodo(s.clock, s.starts, Folded(s.log), Todo(s));
    }
  }

  lemma NothingTodo(clock: int, starts: seq<Job>, jobs: seq<Job>, todo: seq<Op>)
    requires Kept(clock, starts, jobs, todo)
    ensures Kept(clock, starts, jobs, [Initialize])
  {
    forall x | x in jobs && Startable([Initialize], x) ensures Startable(todo, x) {}
  }

  /** After the write's end the snapshot is the base again, and the rest of the chain is to do. */
  lemma AfterEnd(s: State, ok: bool)
    requires ChainShape(s) && s.chain != [] && Kept(s.clock, s.starts, s.jobs, s.chain[1..])
    ensures var t := EndWrite(s, ok); Kept(t.clock, t.starts, Base(t), Todo(t))
  {
    var t := EndWrite(s, ok);
    assert t.chain != [] ==> t.chain[0] == s.chain[1];
    assert Base(t) == s.jobs && Todo(t) == s.chain[1..];
  }

  lemma ApplyOrdered(s: State)
    requires Consistent(s) && s.progress.Persisted? && NoRetries(s.chain)
    requires Kept(s.clock, s.starts, s.jobs, s.chain)
    ensures var t := WriteStep(s); Kept(t.clock, t.starts, Base(t), Todo(t))
  {
    var next := s.(jobs := Applied(s.jobs, s.chain[0].event), count := s.count + 1);
    assert s.chain[0] in s.chain;
    ApplyHead(s.clock, s.starts, s.jobs, s.chain);
    if next.count >= COMPACT_TRIGGER_EVENT_COUNT {
      BeforeCompaction(next);
    } else {
      AfterEnd(next, true);
    }
  }

  lemma BeforeCompaction(s: State)
    requires !Initializing(s) && s.chain != [] && Kept(s.clock, s.starts, s.jobs, s.chain[1..])
    ensures var t := s.(progress := Compacting); Kept(t.clock, t.starts, Base(t), Todo(t))
  {
  }

  lemma RenameOrdered(s: State)
    requires Consistent(s) && s.progress.Written?
    requires Kept(s.clock, s.starts, Base(s), s.chain[1..])
    ensures var t := WriteStep(s); Kept(t.clock, t.starts, Base(t), Todo(t))
  {
    SnapshotKept(s, s.chain[1..]);
    var renamed := s.(log := s.tmp.value, tmp := None, count := 0);
    assert WriteStep(s) == EndWrite(renamed, true);
    AfterEnd(renamed, true);
  }

  lemma SnapshotKept(s: State, todo: seq<Op>)
    requires Consistent(s) && s.progress.Written? && Kept(s.clock, s.starts, Base(s), todo)
    ensures Kept(s.clock, s.starts, s.jobs, todo)
  {
    if Initializing(s) { ReadKept(s.clock, s.starts, Folded(s.log), todo); }
  }

  lemma WriteOrdered(targetOf: JobId -> PipelineId, s: State)
    requires Orderly(targetOf, s) && s.chain != []
    ensures var t := WriteStep(s); Kept(t.clock, t.starts, Base(t), Todo(t))
  {
    match s.progress
    case Waiting => if Initializing(s) { DropHead(s.clock, s.starts, Base(s), Todo(s)); }
    case Persisted => ApplyOrdered(s);
    case Compacting =>
    case Written => RenameOrdered(s);
  }

  lemma FailOrdered(targetOf: JobId -> PipelineId, s: State)
    requires Orderly(targetOf, s) && s.chain != [] && s.chain[0].Append? && !s.progress.Persisted?
    ensures var t := EndWrite(s, false); Kept(t.clock, t.starts, Base(t), Todo(t))
  {
    if s.progress.Waiting? { DropHead(s.clock, s.starts, Base(s), Todo(s)); }
    AfterEnd(s, false);
  }

  // ---------------------------------------------------------------- new writes

  /** A write that creates and starts nothing does not matter. */
  lemma IdleWrite(clock: int, starts: seq<Job>, jobs: seq<Job>, todo: seq<Op>, op: Op)
    requires Kept(clock, starts, jobs, todo) && op.Append? && !op.event.Created? && !op.event.Running?
    ensures Kept(clock, starts, jobs, todo + [op])
  {
    forall x | x in jobs && Startable(todo + [op], x) ensures Startable(todo, x) {}
  }

  lemma CreatingWrite(clock: int, starts: seq<Job>, jobs: seq<Job>, todo: seq<Op>, op: Op)
    requires Kept(clock, starts, jobs, todo) && op.Append? && op.event.Created? && op.event.job.createdAt == clock
    ensures Kept(clock, starts, jobs, todo + [op])
  {
    forall x | x in jobs && Startable(todo + [op], x) ensures Startable(todo, x) {}
    var next := todo + [op];
    forall i, j | 0 <= i < j < |next| && WillCreate(next[i]) && WillCreate(next[j])
      ensures next[i].event.job.createdAt <= next[j].event.job.createdAt
    {
      assert todo[i] in todo;
    }
  }

  /** The write that starts job `p`, which is already startable, next to the record of the start. */
  lemma StartingWrite(clock: int, starts: seq<Job>, jobs: seq<Job>, todo: seq<Op>, op: Op, p: Job)
    requires Kept(clock, starts, jobs, todo) && WillRun(op, p.jobId)
    requires forall x :: x in jobs && x.jobId == p.jobId ==> Startable(todo, x)
    requires forall x :: x in jobs && Startable(todo, x) ==> NotBefore(p, x)
    requires p.createdAt <= clock && forall o :: o in todo && WillCreate(o) ==> p.createdAt <= o.event.job.createdAt
    ensures Kept(clock, starts + [p], jobs, todo + [op])
  {
    forall x | x in jobs && Startable(todo + [op], x) ensures Startable(todo, x) {
      if o :| o in todo + [op] && WillRun(o, x.jobId) { assert o in todo || o == op; }
    }
    var next := todo + [op];
    forall i, j | 0 <= i < j < |next| && WillCreate(next[i]) && WillCreate(next[j])
      ensures next[i].event.job.createdAt <= next[j].event.job.createdAt
    {
      assert j < |todo|;
    }
  }

  lemma Clockwise(clock: int, now: int, starts: seq<Job>, jobs: seq<Job>, todo: seq<Op>)
    requires Kept(clock, starts, jobs, todo) && clock <= now
    ensures Kept(now, starts, jobs, todo)
  {
  }

  // ---------------------------------------------------------------- what a drain picks

  /** The job a drain picks, seen in the base: it is startable there, and no startable job of its target is older. */
  lemma PickedFirst(targetOf: JobId -> PipelineId, s: State, target: PipelineId, x: Job)
    requires Orderly(targetOf, s) && target !in s.drains && JobsOf(s.jobs, target, Active) == [] && JobsOf(s.jobs, target, Pending) != []
    requires x in Base(s) && Startable(Todo(s), x)
    ensures NotBefore(JobsOf(s.jobs, target, Pending)[0], x)
  {
    var pending := JobsOf(s.jobs, target, Pending);
    assert pending[0] in pending;
    if x.toPipelineId == target {
      BaseAimed(targetOf, s);
      NoStartUnderWay(targetOf, s, x);
      if Initializing(s) {
        ReadBack(s, x);
        assert RecoveredJob(x) in pending;
      } else {
        assert x.status == Active ==> x in JobsOf(s.jobs, target, Active);
        assert x in pending;
      }
    }
  }

  lemma BaseAimed(targetOf: JobId -> PipelineId, s: State)
    requires Orderly(targetOf, s)
    ensures Aimed(targetOf, Base(s))
  {
    FoldedAimed(targetOf, s.log);
  }

  lemma NoStartUnderWay(targetOf: JobId -> PipelineId, s: State, x: Job)
    requires Orderly(targetOf, s) && x.toPipelineId == targetOf(x.jobId) && x.toPipelineId !in s.drains
    requires Startable(Todo(s), x)
    ensures x.status in {Pending, Active}
  {
    if op :| op in Todo(s) && WillRun(op, x.jobId) {
      StarterInFlight(targetOf, s, op);
      assert false;
    }
  }

  lemma StarterInFlight(targetOf: JobId -> PipelineId, s: State, op: Op)
    requires Exclusive(targetOf, s) && op in Todo(s) && op.Append? && op.event.Running?
    ensures targetOf(op.event.jobId) in s.drains
  {
    assert StartAlone(targetOf, s.jobs, op);
    assert Awaits(s, op.owner.target);
  }

  lemma ReadBack(s: State, x: Job)
    requires Consistent(s) && Initializing(s) && !s.progress.Waiting? && x in Folded(s.log) && x.status in {Pending, Active}
    ensures RecoveredJob(x) in s.jobs && RecoveredJob(x).status == Pending
  {
    var recovered := Recovered(Folded(s.log));
    var k :| 0 <= k < |recovered| && Folded(s.log)[k] == x;
    var r := recovered[k];
    if r !in Pruned(recovered) { PruneDropsEarliest(recovered, r, r); }
  }

  /** What the base knows of the picked job. */
  lemma PickedInBase(s: State, target: PipelineId, x: Job)
    requires Consistent(s) && JobsOf(s.jobs, target, Pending) != []
    requires x in Base(s) && x.jobId == JobsOf(s.jobs, target, Pending)[0].jobId
    ensures x.status in {Pending, Active}
  {
    var p := JobsOf(s.jobs, target, Pending)[0];
    assert p in JobsOf(s.jobs, target, Pending);
    var y := OriginInBase(s, p);
    SameJob(Base(s), x, y);
  }

  lemma OriginInBase(s: State, p: Job) returns (y: Job)
    requires Consistent(s) && p in s.jobs && p.status == Pending
    ensures y in Base(s) && y.jobId == p.jobId && y.createdAt == p.createdAt && y.toPipelineId == p.toPipelineId
    ensures y.status in {Pending, Active}
  {
    if Initializing(s) { y := RecoveredOrigin(Folded(s.log), p); } else { y := p; }
  }

  lemma SameJob(jobs: seq<Job>, x: Job, y: Job)
    requires Unique(jobs) && x in jobs && y in jobs && x.jobId == y.jobId
    ensures x == y
  {
    var i :| 0 <= i < |jobs| && jobs[i] == x;
    var j :| 0 <= j < |jobs| && jobs[j] == y;
    PositionIs(jobs, i);
    PositionIs(jobs, j);
  }

  // ---------------------------------------------------------------- steps

  lemma StartOrdered(targetOf: JobId -> PipelineId, s: State, target: PipelineId, runId: string)
    requires Orderly(targetOf, s) && target !in s.drains && JobsOf(s.jobs, target, Active) == [] && JobsOf(s.jobs, target, Pending) != []
    ensures var p := JobsOf(s.jobs, target, Pending)[0];
            && Kept(s.clock, s.starts + [p], Base(s), Todo(s) + [Append(Running(s.clock, p.jobId, runId), DrainOf(target))])
            && InOrder(s.starts + [p])
  {
    var p := JobsOf(s.jobs, target, Pending)[0];
    assert p in JobsOf(s.jobs, target, Pending);
    var y := OriginInBase(s, p);
    forall x | x in Base(s) && x.jobId == p.jobId ensures Startable(Todo(s), x) { PickedInBase(s, target, x); }
    forall x | x in Base(s) && Startable(Todo(s), x) ensures NotBefore(p, x) { PickedFirst(targetOf, s, target, x); }
    StartingWrite(s.clock, s.starts, Base(s), Todo(s), Append(Running(s.clock, p.jobId, runId), DrainOf(target)), p);
    forall a | a in s.starts ensures NotBefore(a, p) {
      assert Startable(Todo(s), y) && NotBefore(a, y);
    }
  }

  lemma DrainOneOrdered(targetOf: JobId -> PipelineId, s: State, target: PipelineId, busy: bool, known: bool, runId: string)
    requires Orderly(targetOf, s) && target !in s.drains
    ensures var t := DrainOne(s, target, busy, known, runId);
            Kept(t.clock, t.starts, Base(t), Todo(t)) && InOrder(t.starts) && NoRetries(t.chain)
  {
    var t := DrainOne(s, target, busy, known, runId);
    if t.chain != s.chain {
      StartOrdered(targetOf, s, target, runId);
      ChainGrows(s, t, Append(Running(s.clock, JobsOf(s.jobs, target, Pending)[0].jobId, runId), DrainOf(target)));
    }
  }

  lemma ChainGrows(s: State, t: State, op: Op)
    requires ChainShape(s) && op.Append? && t.chain == s.chain + [op] && t.progress == s.progress && t.log == s.log && t.jobs == s.jobs
    ensures Todo(t) == Todo(s) + [op] && Base(t) == Base(s)
    ensures NoRetries(s.chain) && !op.event.RetryRequested? ==> NoRetries(t.chain)
  {
  }

  /** The steps of a process whose clock never goes back and in which nobody asks for a retry. */
  ghost predicate OrderlyNext(targetOf: JobId -> PipelineId, a: State, b: State) {
    exists input ::
      && Allowed(targetOf, a, input) && b == Step(targetOf, a, input)
      && !input.RequestRetry? && (input.Tick? ==> a.clock <= input.now)
  }

  predicate Plain(input: Input) {
    !input.Write? && !input.WriteFails? && !input.Crash? && !input.RequestDrain? && !input.RequestRetry? && !input.Tick?
  }

  /** The write that a step between writes may add. */
  lemma OtherWrite(targetOf: JobId -> PipelineId, s: State, input: Input) returns (op: Op)
    requires Allowed(targetOf, s, input) && Plain(input)
    ensures var t := Step(targetOf, s, input);
            && t.log == s.log && t.jobs == s.jobs && t.progress == s.progress && t.starts == s.starts && t.clock == s.clock
            && (t.chain == s.chain || t.chain == s.chain + [op])
    ensures op.Append? && !op.event.Running? && !op.event.RetryRequested?
    ensures op.event.Created? ==> op.event.job.createdAt == s.clock
  {
    var t := Step(targetOf, s, input);
    op := if t.chain == s.chain then Append(Cancel(0, ""), Nobody) else t.chain[|s.chain|];
  }

  lemma GrownKept(s: State, t: State, op: Op)
    requires ChainShape(s) && NoRetries(s.chain) && Kept(s.clock, s.starts, Base(s), Todo(s))
    requires t.log == s.log && t.jobs == s.jobs && t.progress == s.progress && t.starts == s.starts && t.clock == s.clock
    requires t.chain == s.chain + [op]
    requires op.Append? && !op.event.Running? && !op.event.RetryRequested?
    requires op.event.Created? ==> op.event.job.createdAt == s.clock
    ensures Kept(t.clock, t.starts, Base(t), Todo(t)) && NoRetries(t.chain)
  {
    ChainGrows(s, t, op);
    if op.event.Created? {
      CreatingWrite(s.clock, s.starts, Base(s), Todo(s), op);
    } else {
      IdleWrite(s.clock, s.starts, Base(s), Todo(s), op);
    }
  }

  lemma OtherOrdered(targetOf: JobId -> PipelineId, s: State, input: Input)
    requires Orderly(targetOf, s) && Allowed(targetOf, s, input) && Plain(input)
    ensures var t := Step(targetOf, s, input);
            Kept(t.clock, t.starts, Base(t), Todo(t)) && t.starts == s.starts && NoRetries(t.chain)
  {
    var t := Step(targetOf, s, input);
    var op := OtherWrite(targetOf, s, input);
    if t.chain != s.chain { GrownKept(s, t, op); }
  }

  ghost predicate KeepsOrder(t: State) {
    Kept(t.clock, t.starts, Base(t), Todo(t)) && InOrder(t.starts) && NoRetries(t.chain)
  }

  lemma WriteKeepsOrder(targetOf: JobId -> PipelineId, s: State)
    requires Orderly(targetOf, s) && s.chain != []
    ensures KeepsOrder(WriteStep(s))
  {
    WriteOrdered(targetOf, s);
    ShorterChain(s, WriteStep(s));
  }

  lemma FailKeepsOrder(targetOf: JobId -> PipelineId, s: State)
    requires Orderly(targetOf, s) && s.chain != [] && s.chain[0].Append? && !s.progress.Persisted?
    ensures KeepsOrder(EndWrite(s, false))
  {
    FailOrdered(targetOf, s);
    ShorterChain(s, EndWrite(s, false));
  }

  lemma ShorterChain(s: State, t: State)
    requires s.chain != [] && NoRetries(s.chain) && (t.chain == s.chain || t.chain == s.chain[1..])
    ensures NoRetries(t.chain)
  {
  }

  lemma CrashKeepsOrder(targetOf: JobId -> PipelineId, s: State)
    requires Orderly(targetOf, s)
    ensures KeepsOrder(Fresh(s.log, s.tmp, s.clock, s.starts))
  {
    DiskKept(targetOf, s);
  }

  lemma StepOrdered(targetOf: JobId -> PipelineId, s: State, input: Input)
    requires Orderly(targetOf, s) && Allowed(targetOf, s, input)
    requires !input.RequestRetry? && (input.Tick? ==> s.clock <= input.now)
    ensures KeepsOrder(Step(targetOf, s, input))
  {
    match input
    case Write => WriteKeepsOrder(targetOf, s);
    case WriteFails => FailKeepsOrder(targetOf, s);
    case Crash => CrashKeepsOrder(targetOf, s);
    case Tick(now) => Clockwise(s.clock, now, s.starts, Base(s), Todo(s));
    case RequestDrain(target, busy, known, runId) => if target !in s.drains { DrainOneOrdered(targetOf, s, target, busy, known, runId); }
    case _ => OtherOrdered(targetOf, s, input);
  }

  /** An orderly history over a log whose jobs were created in the past. */
  ghost predicate IsOrderlyHistory(targetOf: JobId -> PipelineId, states: seq<State>) {
    && Linked(states, (a: State, b: State) => OrderlyNext(targetOf, a, b))
    && states[0] == Fresh(states[0].log, states[0].tmp, states[0].clock, [])
    && forall x :: x in Folded(states[0].log) ==> x.createdAt <= states[0].clock
  }

  lemma NextOrderly(targetOf: JobId -> PipelineId, a: State, b: State)
    requires Orderly(targetOf, a) && OrderlyNext(targetOf, a, b)
    ensures Orderly(targetOf, b)
  {
    var input :| && Allowed(targetOf, a, input) && b == Step(targetOf, a, input)
                 && !input.RequestRetry? && (input.Tick? ==> a.clock <= input.now);
    StepExclusive(targetOf, a, input);
    StepOrdered(targetOf, a, input);
  }

  lemma FreshOrderly(targetOf: JobId -> PipelineId, s: State)
    requires s == Fresh(s.log, s.tmp, s.clock, []) && LogAimed(targetOf, s.log)
    requires forall x :: x in Folded(s.log) ==> x.createdAt <= s.clock
    ensures Orderly(targetOf, s)
  {
  }

  /** Of two jobs of one target, the one that started first was not created later, across crashes too. */
  lemma StartsInCreationOrder(targetOf: JobId -> PipelineId, states: seq<State>, k: nat, i: nat, j: nat)
    requires IsOrderlyHistory(targetOf, states) && LogAimed(targetOf, states[0].log)
    requires k < |states| && i < j < |states[k].starts|
    requires states[k].starts[i].toPipelineId == states[k].starts[j].toPipelineId
    ensures states[k].starts[i].createdAt <= states[k].starts[j].createdAt
  {
    var next, inv := (a: State, b: State) => OrderlyNext(targetOf, a, b), (s: State) => Orderly(targetOf, s);
    FreshOrderly(targetOf, states[0]);
    forall a, b | inv(a) && next(a, b) ensures inv(b) { NextOrderly(targetOf, a, b); }
    Invariance(states, next, inv);
    assert inv(states[k]);
    assert NotBefore(states[k].starts[i], states[k].starts[j]);
  }
}
