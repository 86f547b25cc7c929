/** The inbound job queue: an event log folded into an insertion-ordered snapshot of jobs. */
module InboundQueue {
  import opened Common

  const MAX_COMPLETED_JOBS: nat := 500
  const COMPACT_TRIGGER_EVENT_COUNT: nat := 2000

  type JobId = string
  type PipelineId = string

  datatype JobStatus = Pending | Active | Succeeded | Broken | Canceled

  /** Times are numbers; a time that is None comes before all others. */
  datatype Job = Job(
    jobId: JobId,
    linkId: string,
    toPipelineId: PipelineId,
    status: JobStatus,
    targetRunId: Option<string>,
    attempts: nat,
    createdAt: int,
    startedAt: Option<int>,
    finishedAt: Option<int>,
    error: Option<string>)

  datatype Event =
    | Created(job: Job)
    | Running(at: int, jobId: JobId, runId: string)
    | Success(at: int, jobId: JobId)
    | Failure(at: int, jobId: JobId, failedRunId: Option<string>, error: string)
    | Cancel(at: int, jobId: JobId)
    | RetryRequested(jobId: JobId)

  // ---------------------------------------------------------------- the snapshot

  /** The position of a job, or |jobs|. */
  function Position(jobs: seq<Job>, id: JobId): (k: nat)
    ensures k <= |jobs|
    ensures k < |jobs| ==> jobs[k].jobId == id
    ensures forall i :: 0 <= i < k ==> jobs[i].jobId != id
  {
    if jobs == [] || jobs[0].jobId == id then 0 else 1 + Position(jobs[1..], id)
  }

  ghost predicate Unique(jobs: seq<Job>) {
    forall i, j :: 0 <= i < j < |jobs| ==> jobs[i].jobId != jobs[j].jobId
  }

  /** Setting a key of an insertion-ordered map keeps its place, or appends. */
  function Put(jobs: seq<Job>, job: Job): (r: seq<Job>)
    ensures Unique(jobs) ==> Unique(r)
  {
    var k := Position(jobs, job.jobId);
    if k < |jobs| then jobs[k := job] else jobs + [job]
  }

  /** The jobs whose id is not among `ids`, in order. */
  function Without(jobs: seq<Job>, ids: seq<JobId>): (r: seq<Job>)
    ensures forall x :: x in r <==> x in jobs && x.jobId !in ids
  {
    if jobs == [] then []
    else if jobs[0].jobId in ids then Without(jobs[1..], ids)
    else [jobs[0]] + Without(jobs[1..], ids)
  }

  lemma {:induction false} WithoutUnique(jobs: seq<Job>, ids: seq<JobId>)
    requires Unique(jobs)
    ensures Unique(Without(jobs, ids))
  {
    if jobs == [] {
    } else {
      WithoutUnique(jobs[1..], ids);
      forall x | x in Without(jobs[1..], ids) ensures x.jobId != jobs[0].jobId {
        assert x in jobs[1..];
      }
    }
  }

  function JobIds(jobs: seq<Job>): (r: seq<JobId>)
    ensures |r| == |jobs| && forall i :: 0 <= i < |jobs| ==> r[i] == jobs[i].jobId
  {
    seq(|jobs|, i requires 0 <= i < |jobs| => jobs[i].jobId)
  }

  // ---------------------------------------------------------------- pruning

  predicate Done(job: Job) { job.status in {Succeeded, Broken, Canceled} }

  function Completed(jobs: seq<Job>): (r: seq<Job>)
    ensures forall x :: x in r <==> x in jobs && Done(x)
    ensures |r| <= |jobs|
  {
    if jobs == [] then []
    else if Done(jobs[0]) then [jobs[0]] + Completed(jobs[1..])
    else Completed(jobs[1..])
  }

  predicate NoLater(a: Option<int>, b: Option<int>) { a.None? || (b.Some? && a.value <= b.value) }

  function InsertByFinish(job: Job, sorted: seq<Job>): (r: seq<Job>)
    ensures multiset(r) == multiset(sorted) + multiset{job}
  {
    if sorted == [] || NoLater(job.finishedAt, sorted[0].finishedAt) then [job] + sorted
    else
      assert sorted == [sorted[0]] + sorted[1..];
      [sorted[0]] + InsertByFinish(job, sorted[1..])
  }

  /** A stable sort: of two jobs that finished at the same time the first stays first. */
  function SortByFinish(jobs: seq<Job>): (r: seq<Job>)
    ensures multiset(r) == multiset(jobs)
  {
    if jobs == [] then []
    else
      assert jobs == [jobs[0]] + jobs[1..];
      InsertByFinish(jobs[0], SortByFinish(jobs[1..]))
  }

  /** The ids of the finished jobs beyond the limit, oldest first. */
  function Surplus(jobs: seq<Job>): seq<JobId> {
    var done := Completed(jobs);
    if |done| <= MAX_COMPLETED_JOBS then []
    else
      SameSize(SortByFinish(done), done);
      JobIds(SortByFinish(done)[..|done| - MAX_COMPLETED_JOBS])
  }

  lemma SameSize(a: seq<Job>, b: seq<Job>)
    requires multiset(a) == multiset(b)
    ensures |a| == |b| && forall x :: x in a <==> x in b
  {
    assert |multiset(a)| == |multiset(b)|;
    forall x ensures x in a <==> x in b {
      assert x in multiset(a) <==> x in multiset(b);
    }
  }

  function Pruned(jobs: seq<Job>): (r: seq<Job>)
    ensures Unique(jobs) ==> Unique(r)
  {
    assert Unique(jobs) ==> Unique(Without(jobs, Surplus(jobs))) by {
      if Unique(jobs) { WithoutUnique(jobs, Surplus(jobs)); }
    }
    Without(jobs, Surplus(jobs))
  }

  // ---------------------------------------------------------------- events

  function Change(job: Job, event: Event): Job {
    match event
    case Created(created) => created
    case Running(at, _, runId) =>
      job.(status := Active, targetRunId := Some(runId), startedAt := Some(at), attempts := job.attempts + 1)
    case Success(at, _) => job.(status := Succeeded, finishedAt := Some(at))
    case Failure(at, _, runId, error) =>
      job.(status := Broken, targetRunId := if runId.Some? then runId else job.targetRunId, finishedAt := Some(at), error := Some(error))
    case Cancel(at, _) => job.(status := Canceled, finishedAt := Some(at))
    case RetryRequested(_) =>
      job.(status := Pending, targetRunId := None, startedAt := None, finishedAt := None, error := None)
  }

  predicate Finishes(event: Event) { event.Success? || event.Failure? || event.Cancel? }

  /** An event about an unknown job changes nothing, yet a finishing one still prunes. */
  function Applied(jobs: seq<Job>, event: Event): (r: seq<Job>)
    ensures Unique(jobs) ==> Unique(r)
  {
    if event.Created? then Put(jobs, event.job)
    else
      var k := Position(jobs, event.jobId);
      var next := if k < |jobs| then jobs[k := Change(jobs[k], event)] else jobs;
      if Finishes(event) then Pruned(next) else next
  }

  /** What reading a log back amounts to. */
  function Folded(log: seq<Event>): (r: seq<Job>)
    ensures Unique(r)
  {
    if log == [] then [] else Applied(Folded(log[..|log| - 1]), log[|log| - 1])
  }

  function RecoveredJob(job: Job): Job {
    if job.status == Active
    then job.(status := Pending, targetRunId := None, startedAt := None, error := Some("recovered_after_crash"))
    else job
  }

  /** Jobs that were running when the process ended wait again. */
  function Recovered(jobs: seq<Job>): (r: seq<Job>)
    ensures |r| == |jobs| && forall i :: 0 <= i < |jobs| ==> r[i] == RecoveredJob(jobs[i])
    ensures Unique(jobs) ==> Unique(r)
    ensures forall i :: 0 <= i < |jobs| ==> r[i].status != Active
  {
    seq(|jobs|, i requires 0 <= i < |jobs| => RecoveredJob(jobs[i]))
  }

  /** The compacted log of a snapshot. */
  function Lines(jobs: seq<Job>): (r: seq<Event>)
    ensures |r| == |jobs| && forall i :: 0 <= i < |jobs| ==> r[i] == Created(jobs[i])
  {
    seq(|jobs|, i requires 0 <= i < |jobs| => Created(jobs[i]))
  }

  // ---------------------------------------------------------------- what the log means

  lemma FoldedSnoc(log: seq<Event>, event: Event)
    ensures Folded(log + [event]) == Applied(Folded(log), event)
  {
    assert (log + [event])[..|log|] == log;
  }

  lemma FoldedStep(log: seq<Event>, i: nat)
    requires i < |log|
    ensures Folded(log[..i + 1]) == Applied(Folded(log[..i]), log[i])
  {
    assert log[..i + 1] == log[..i] + [log[i]];
    FoldedSnoc(log[..i], log[i]);
  }

  /** Compaction keeps the meaning of the log, order included. */
  lemma {:induction false} CompactionPreserves(jobs: seq<Job>)
    requires Unique(jobs)
    ensures Folded(Lines(jobs)) == jobs
  {
    if jobs == [] {
    } else {
      var n := |jobs| - 1;
      CompactionPreserves(jobs[..n]);
      assert Lines(jobs) == Lines(jobs[..n]) + [Created(jobs[n])];
      FoldedSnoc(Lines(jobs[..n]), Created(jobs[n]));
      assert jobs == jobs[..n] + [jobs[n]];
    }
  }

  // ---------------------------------------------------------------- what pruning keeps

  /** Finished earlier, or at the same time and listed earlier. */
  predicate Earlier(jobs: seq<Job>, a: Job, b: Job) {
    && NoLater(a.finishedAt, b.finishedAt)
    && (a.finishedAt == b.finishedAt ==> Position(jobs, a.jobId) < Position(jobs, b.jobId))
  }

  ghost predicate BeforeAll(jobs: seq<Job>, a: Job, rest: seq<Job>) {
    forall x :: x in rest ==> Earlier(jobs, a, x)
  }

  ghost predicate Ordered(jobs: seq<Job>, sorted: seq<Job>) {
    sorted == [] || (BeforeAll(jobs, sorted[0], sorted[1..]) && Ordered(jobs, sorted[1..]))
  }

  /** Listed in the order of `jobs`. */
  ghost predicate Rising(jobs: seq<Job>, part: seq<Job>) {
    part == [] || ((forall x :: x in part[1..] ==> Position(jobs, part[0].jobId) < Position(jobs, x.jobId)) && Rising(jobs, part[1..]))
  }

  lemma InsertedElements(job: Job, sorted: seq<Job>)
    ensures forall x :: x in InsertByFinish(job, sorted) <==> x == job || x in sorted
  {
    var r := InsertByFinish(job, sorted);
    assert multiset(r) == multiset([job] + sorted);
    SameSize(r, [job] + sorted);
  }

  lemma {:induction false} InsertOrdered(jobs: seq<Job>, job: Job, sorted: seq<Job>)
    requires Ordered(jobs, sorted)
    requires forall x :: x in sorted ==> Position(jobs, job.jobId) < Position(jobs, x.jobId)
    ensures Ordered(jobs, InsertByFinish(job, sorted))
  {
    if sorted == [] {
    } else {
      assert sorted[0] in sorted;
      if NoLater(job.finishedAt, sorted[0].finishedAt) {
        FirstOfEqual(jobs, job, sorted);
      } else {
        InsertOrdered(jobs, job, sorted[1..]);
        InsertedElements(job, sorted[1..]);
        assert Earlier(jobs, sorted[0], job);
        assert InsertByFinish(job, sorted)[1..] == InsertByFinish(job, sorted[1..]);
      }
    }
  }

  lemma FirstOfEqual(jobs: seq<Job>, job: Job, sorted: seq<Job>)
    requires Ordered(jobs, sorted) && sorted != [] && NoLater(job.finishedAt, sorted[0].finishedAt)
    requires forall x :: x in sorted ==> Position(jobs, job.jobId) < Position(jobs, x.jobId)
    ensures Ordered(jobs, [job] + sorted)
  {
    forall x | x in sorted ensures Earlier(jobs, job, x) {
      assert x == sorted[0] || x in sorted[1..];
    }
    assert ([job] + sorted)[1..] == sorted;
  }

  lemma {:induction false} SortOrdered(jobs: seq<Job>, part: seq<Job>)
    requires Rising(jobs, part)
    ensures Ordered(jobs, SortByFinish(part))
  {
    if part == [] {
    } else {
      SortOrdered(jobs, part[1..]);
      SameSize(SortByFinish(part[1..]), part[1..]);
      InsertOrdered(jobs, part[0], SortByFinish(part[1..]));
    }
  }

  lemma PositionIs(jobs: seq<Job>, k: nat)
    requires Unique(jobs) && k < |jobs|
    ensures Position(jobs, jobs[k].jobId) == k
  {
  }

  lemma {:induction false} CompletedRising(jobs: seq<Job>, i: nat)
    requires Unique(jobs) && i <= |jobs|
    ensures Rising(jobs, Completed(jobs[i..]))
    ensures Unique(Completed(jobs[i..]))
    decreases |jobs| - i
  {
    if i == |jobs| {
    } else {
      CompletedRising(jobs, i + 1);
      assert jobs[i..][1..] == jobs[i + 1..];
      PositionIs(jobs, i);
      var rest := Completed(jobs[i + 1..]);
      forall x | x in rest ensures i < Position(jobs, x.jobId) && x.jobId != jobs[i].jobId {
        var k :| i + 1 <= k < |jobs| && jobs[k] == x;
        PositionIs(jobs, k);
      }
    }
  }

  lemma {:induction false} OrderedParts(jobs: seq<Job>, sorted: seq<Job>, n: nat, a: Job, b: Job)
    requires Ordered(jobs, sorted) && n <= |sorted| && a in sorted[..n] && b in sorted[n..]
    ensures Earlier(jobs, a, b)
  {
    if a == sorted[0] {
      assert b in sorted[1..];
    } else {
      assert a in sorted[1..][..n - 1];
      assert sorted[1..][n - 1..] == sorted[n..];
      OrderedParts(jobs, sorted[1..], n - 1, a, b);
    }
  }

  lemma {:induction false} CompletedWithout(jobs: seq<Job>, ids: seq<JobId>)
    ensures Completed(Without(jobs, ids)) == Without(Completed(jobs), ids)
  {
    if jobs == [] {
    } else {
      CompletedWithout(jobs[1..], ids);
    }
  }

  lemma UniqueIds(a: seq<Job>)
    ensures Unique(a) <==> Distinct(JobIds(a))
    ensures Unique(a) <==> |ToSet(JobIds(a))| == |a|
  {
    SetSize(JobIds(a));
    assert forall i :: 0 <= i < |a| ==> JobIds(a)[i] == a[i].jobId;
  }

  lemma SameIds(a: seq<Job>, b: seq<Job>)
    requires forall x :: x in a <==> x in b
    ensures ToSet(JobIds(a)) == ToSet(JobIds(b))
  {
    IdsWithin(a, b);
    IdsWithin(b, a);
  }

  lemma IdsWithin(a: seq<Job>, b: seq<Job>)
    requires forall x :: x in a ==> x in b
    ensures ToSet(JobIds(a)) <= ToSet(JobIds(b))
  {
    forall id | id in JobIds(a) ensures id in JobIds(b) {
      var i :| 0 <= i < |a| && JobIds(a)[i] == id;
      assert a[i] in b;
      var j :| 0 <= j < |b| && b[j] == a[i];
      assert JobIds(b)[j] == id;
    }
  }

  lemma SplitMembers(sorted: seq<Job>, n: nat, x: Job)
    requires Unique(sorted) && n <= |sorted|
    ensures x in sorted[n..] <==> x in sorted && x.jobId !in JobIds(sorted[..n])
  {
    var front := JobIds(sorted[..n]);
    assert forall i :: 0 <= i < n ==> front[i] == sorted[i].jobId && front[i] in front;
    if x in sorted && x.jobId !in front {
      var k :| 0 <= k < |sorted| && sorted[k] == x;
      assert sorted[n..][k - n] == x;
    }
    if x in sorted[n..] {
      var k :| 0 <= k < |sorted| - n && sorted[n..][k] == x;
      assert sorted[n + k] == x;
      assert forall i :: 0 <= i < n ==> front[i] == sorted[i].jobId;
    }
  }

  /** Taking away the jobs of the first part of a rearrangement leaves those of the second part. */
  lemma WithoutFront(done: seq<Job>, sorted: seq<Job>, n: nat)
    requires Unique(done) && multiset(sorted) == multiset(done) && n <= |sorted|
    ensures |Without(done, JobIds(sorted[..n]))| == |sorted| - n
    ensures forall x :: x in Without(done, JobIds(sorted[..n])) <==> x in sorted[n..]
  {
    var left := Without(done, JobIds(sorted[..n]));
    RearrangedUnique(done, sorted);
    forall x ensures x in left <==> x in sorted[n..] {
      SplitMembers(sorted, n, x);
    }
    WithoutUnique(done, JobIds(sorted[..n]));
    SameMembersSameSize(left, sorted[n..]);
  }

  lemma SameMembersSameSize(a: seq<Job>, b: seq<Job>)
    requires Unique(a) && Unique(b) && forall x :: x in a <==> x in b
    ensures |a| == |b|
  {
    SameIds(a, b);
    UniqueIds(a);
    UniqueIds(b);
  }

  lemma RearrangedUnique(done: seq<Job>, sorted: seq<Job>)
    requires Unique(done) && multiset(sorted) == multiset(done)
    ensures Unique(sorted) && |sorted| == |done| && forall x :: x in sorted <==> x in done
  {
    SameSize(sorted, done);
    SameIds(sorted, done);
    UniqueIds(sorted);
    UniqueIds(done);
  }

  lemma {:induction false} WithoutNothing(jobs: seq<Job>)
    ensures Without(jobs, []) == jobs
  {
    if jobs == [] {
    } else {
      WithoutNothing(jobs[1..]);
    }
  }

  lemma DroppedBeforeKept(jobs: seq<Job>, done: seq<Job>, sorted: seq<Job>, n: nat, x: Job, y: Job)
    requires Unique(jobs) && Unique(done) && (forall z :: z in done ==> z in jobs && Done(z))
    requires multiset(sorted) == multiset(done) && Ordered(jobs, sorted) && n <= |sorted|
    requires x in jobs && x.jobId in JobIds(sorted[..n])
    requires y in done && y.jobId !in JobIds(sorted[..n])
    ensures Done(x) && Earlier(jobs, x, y)
  {
    SameSize(sorted, done);
    WithoutFront(done, sorted, n);
    DroppedIsFirst(jobs, done, sorted, n, x);
    assert x in sorted;
    OrderedParts(jobs, sorted, n, x, y);
  }

  lemma DroppedIsFirst(jobs: seq<Job>, done: seq<Job>, sorted: seq<Job>, n: nat, x: Job)
    requires Unique(jobs) && (forall y :: y in sorted ==> y in jobs) && n <= |sorted|
    requires x in jobs && x.jobId in JobIds(sorted[..n])
    ensures x in sorted[..n]
  {
    var k :| 0 <= k < n && JobIds(sorted[..n])[k] == x.jobId;
    assert sorted[k] in sorted && sorted[..n][k] == sorted[k];
    var i :| 0 <= i < |jobs| && jobs[i] == x;
    var j :| 0 <= j < |jobs| && jobs[j] == sorted[k];
    PositionIs(jobs, i);
    PositionIs(jobs, j);
  }

  lemma SurplusIsFront(jobs: seq<Job>)
    requires Unique(jobs)
    ensures var done, sorted := Completed(jobs), SortByFinish(Completed(jobs));
            && Unique(done) && Rising(jobs, done) && |sorted| == |done|
            && Surplus(jobs) == JobIds(sorted[..if |done| <= MAX_COMPLETED_JOBS then 0 else |done| - MAX_COMPLETED_JOBS])
  {
    assert jobs[0..] == jobs;
    CompletedRising(jobs, 0);
    SameSize(SortByFinish(Completed(jobs)), Completed(jobs));
  }

  /** Within the limit nothing is dropped. */
  lemma PruneIdle(jobs: seq<Job>)
    requires |Completed(jobs)| <= MAX_COMPLETED_JOBS
    ensures Pruned(jobs) == jobs
  {
    WithoutNothing(jobs);
  }

  /** The finished jobs in finishing order, of which the first `n` are dropped. */
  lemma SurplusFacts(jobs: seq<Job>) returns (done: seq<Job>, sorted: seq<Job>, n: nat)
    requires Unique(jobs)
    ensures Unique(done) && (forall z :: z in done <==> z in jobs && Done(z))
    ensures multiset(sorted) == multiset(done) && (forall z :: z in sorted <==> z in done) && Ordered(jobs, sorted)
    ensures n <= |sorted| && Surplus(jobs) == JobIds(sorted[..n])
    ensures done == Completed(jobs) && n == if |done| <= MAX_COMPLETED_JOBS then 0 else |done| - MAX_COMPLETED_JOBS
  {
    done, sorted := Completed(jobs), SortByFinish(Completed(jobs));
    n := if |done| <= MAX_COMPLETED_JOBS then 0 else |done| - MAX_COMPLETED_JOBS;
    SurplusIsFront(jobs);
    SameSize(sorted, done);
    SortOrdered(jobs, done);
  }

  /** At most the limit of finished jobs is kept, and no fewer than that if there are as many. */
  lemma PruneCount(jobs: seq<Job>)
    requires Unique(jobs)
    ensures |Completed(Pruned(jobs))| ==
              if |Completed(jobs)| <= MAX_COMPLETED_JOBS then |Completed(jobs)| else MAX_COMPLETED_JOBS
  {
    var done, sorted, n := SurplusFacts(jobs);
    CompletedWithout(jobs, Surplus(jobs));
    LeftAfterFront(done, sorted, n, Surplus(jobs));
  }

  lemma LeftAfterFront(done: seq<Job>, sorted: seq<Job>, n: nat, ids: seq<JobId>)
    requires Unique(done) && multiset(sorted) == multiset(done) && n <= |sorted| && ids == JobIds(sorted[..n])
    ensures |Without(done, ids)| == |done| - n
  {
    WithoutFront(done, sorted, n);
    SameSize(sorted, done);
  }

  /** What is dropped is a finished job that finished before every finished job that is kept; ties go by map order. */
  lemma PruneDropsEarliest(jobs: seq<Job>, x: Job, y: Job)
    requires Unique(jobs) && x in jobs && x !in Pruned(jobs)
    ensures Done(x)
    ensures y in Pruned(jobs) && Done(y) ==> Earlier(jobs, x, y)
  {
    var done, sorted, n := SurplusFacts(jobs);
    DroppedIsFirst(jobs, done, sorted, n, x);
    if y in Pruned(jobs) && Done(y) {
      DroppedBeforeKept(jobs, done, sorted, n, x, y);
    }
  }

  // ---------------------------------------------------------------- who is next

  predicate LexLess(a: string, b: string) {
    b != [] && (a == [] || a[0] < b[0] || (a[0] == b[0] && LexLess(a[1..], b[1..])))
  }

  predicate ComesBefore(a: Job, b: Job) {
    a.createdAt < b.createdAt || (a.createdAt == b.createdAt && !LexLess(b.jobId, a.jobId))
  }

  function InsertByCreation(job: Job, sorted: seq<Job>): (r: seq<Job>)
    ensures forall x :: x in r <==> x == job || x in sorted
    ensures r != [] && (r[0] == job || (sorted != [] && r[0] == sorted[0]))
    ensures (sorted == [] || forall x :: x in sorted ==> sorted[0].createdAt <= x.createdAt) ==>
              forall x :: x in r ==> r[0].createdAt <= x.createdAt
  {
    if sorted == [] || ComesBefore(job, sorted[0]) then [job] + sorted
    else [sorted[0]] + InsertByCreation(job, sorted[1..])
  }

  /** The jobs of one target and status, by creation time and then by id. */
  function JobsOf(jobs: seq<Job>, target: PipelineId, status: JobStatus): (r: seq<Job>)
    ensures forall x :: x in r <==> x in jobs && x.toPipelineId == target && x.status == status
    ensures r != [] ==> forall x :: x in r ==> r[0].createdAt <= x.createdAt
  {
    if jobs == [] then []
    else if jobs[0].toPipelineId == target && jobs[0].status == status
    then InsertByCreation(jobs[0], JobsOf(jobs[1..], target, status))
    else JobsOf(jobs[1..], target, status)
  }

  lemma {:induction false} LexAsymmetric(a: string, b: string)
    requires LexLess(a, b)
    ensures !LexLess(b, a)
    decreases |a|
  {
    if a == [] {
    } else if a[0] == b[0] {
      LexAsymmetric(a[1..], b[1..]);
    }
  }

  lemma {:induction false} LexBetween(a: string, b: string, c: string)
    requires LexLess(a, c)
    ensures LexLess(a, b) || LexLess(b, c)
    decreases |a|
  {
    if a == [] || b == [] {
    } else if a[0] == b[0] == c[0] {
      LexBetween(a[1..], b[1..], c[1..]);
    }
  }

  lemma ComesBeforeTotal(a: Job, b: Job)
    ensures ComesBefore(a, b) || ComesBefore(b, a)
  {
    if LexLess(b.jobId, a.jobId) { LexAsymmetric(b.jobId, a.jobId); }
  }

  lemma ComesBeforeTransitive(a: Job, b: Job, c: Job)
    requires ComesBefore(a, b) && ComesBefore(b, c)
    ensures ComesBefore(a, c)
  {
    if LexLess(c.jobId, a.jobId) { LexBetween(c.jobId, b.jobId, a.jobId); }
  }

  ghost predicate ByCreation(jobs: seq<Job>) {
    forall i, j :: 0 <= i < j < |jobs| ==> ComesBefore(jobs[i], jobs[j])
  }

  lemma {:induction false} InsertKeepsOrder(job: Job, sorted: seq<Job>)
    requires ByCreation(sorted)
    ensures ByCreation(InsertByCreation(job, sorted))
    ensures multiset(InsertByCreation(job, sorted)) == multiset(sorted) + multiset{job}
    decreases |sorted|
  {
    hide ComesBefore;
    if sorted == [] {
    } else if ComesBefore(job, sorted[0]) {
      forall k | 0 <= k < |sorted| ensures ComesBefore(job, sorted[k]) {
        if k > 0 { ComesBeforeTransitive(job, sorted[0], sorted[k]); }
      }
    } else {
      ComesBeforeTotal(job, sorted[0]);
      var rest := InsertByCreation(job, sorted[1..]);
      InsertKeepsOrder(job, sorted[1..]);
      assert sorted == [sorted[0]] + sorted[1..];
      forall x | x in rest ensures ComesBefore(sorted[0], x) {
        if x != job { var k :| 0 <= k < |sorted| - 1 && sorted[1..][k] == x; assert sorted[k + 1] == x; }
      }
      forall k | 0 <= k < |rest| ensures ComesBefore(sorted[0], rest[k]) { assert rest[k] in rest; }
    }
  }

  /** They are the jobs of the target and status with their repetitions, in order of creation, ties by id. */
  lemma {:induction false} JobsOfSorted(jobs: seq<Job>, target: PipelineId, status: JobStatus)
    ensures ByCreation(JobsOf(jobs, target, status))
    ensures multiset(JobsOf(jobs, target, status))
         == multiset(Filter(jobs, (x: Job) => x.toPipelineId == target && x.status == status))
    decreases |jobs|
  {
    hide ComesBefore;
    if jobs == [] {
    } else {
      JobsOfSorted(jobs[1..], target, status);
      InsertKeepsOrder(jobs[0], JobsOf(jobs[1..], target, status));
    }
  }

  // ---------------------------------------------------------------- the queue object

  datatype Answer = Appended(event: Event) | NotFound | NotCancelable | NotRetryable

  class QueueStore {
    var jobs: seq<Job>
    var eventsSinceCompact: nat

    constructor ()
      ensures jobs == [] && eventsSinceCompact == 0
    {
      jobs, eventsSinceCompact := [], 0;
    }

    method CollectCompleted() returns (completed: seq<Job>)
      ensures completed == Completed(jobs)
    {
      completed := [];
      for i := 0 to |jobs|
        invariant completed + Completed(jobs[i..]) == Completed(jobs)
      {
        CompletedStep(jobs, i, completed);
        if Done(jobs[i]) { completed := completed + [jobs[i]]; }
      }
      assert jobs[|jobs|..] == [];
    }

    method DeleteFirst(dropped: seq<Job>, count: nat)
      requires count <= |dropped|
      modifies this`jobs
      ensures jobs == Without(old(jobs), JobIds(dropped[..count]))
    {
      WithoutNothing(jobs);
      for i := 0 to count
        invariant jobs == Without(old(jobs), JobIds(dropped[..i]))
      {
        WithoutStep(old(jobs), dropped, i);
        jobs := Without(jobs, [dropped[i].jobId]);
      }
    }

    method PruneCompletedJobs()
      modifies this`jobs
      ensures jobs == Pruned(old(jobs))
    {
      var completed := CollectCompleted();
      WithoutNothing(jobs);
      if |completed| <= MAX_COMPLETED_JOBS { return; }
      SameSize(SortByFinish(completed), completed);
      completed := SortByFinish(completed);
      var toDelete := |completed| - MAX_COMPLETED_JOBS;
      PrunedIs(jobs, completed, toDelete);
      DeleteFirst(completed, toDelete);
    }

    method ApplyEvent(event: Event)
      modifies this`jobs
      ensures jobs == Applied(old(jobs), event)
    {
      if event.Created? {
        jobs := Put(jobs, event.job);
        return;
      }
      var k := Position(jobs, event.jobId);
      if k < |jobs| { jobs := jobs[k := Change(jobs[k], event)]; }
      if Finishes(event) { PruneCompletedJobs(); }
    }

    method Replay(log: seq<Event>)
      modifies this`jobs
      ensures jobs == Recovered(Folded(log))
    {
      jobs := [];
      for i := 0 to |log|
        invariant jobs == Folded(log[..i])
      {
        FoldedStep(log, i);
        ApplyEvent(log[i]);
      }
      assert log[..|log|] == log;
      RecoverRunning();
    }

    method RecoverRunning()
      modifies this`jobs
      ensures jobs == Recovered(old(jobs))
    {
      ghost var folded := jobs;
      for i := 0 to |jobs|
        invariant |jobs| == |folded|
        invariant forall k :: 0 <= k < |jobs| ==> jobs[k] == if k < i then RecoveredJob(folded[k]) else folded[k]
      {
        if jobs[i].status == Active { jobs := jobs[i := RecoveredJob(jobs[i])]; }
      }
    }

    /** The lines a compaction writes; reading them back gives the snapshot again. */
    method CompactLines() returns (lines: seq<Event>)
      requires Unique(jobs)
      ensures lines == Lines(jobs) && Folded(lines) == jobs
    {
      lines := [];
      for i := 0 to |jobs|
        invariant lines == Lines(jobs[..i])
      {
        assert jobs[..i + 1] == jobs[..i] + [jobs[i]];
        lines := lines + [Created(jobs[i])];
      }
      assert jobs[..|jobs|] == jobs;
      CompactionPreserves(jobs);
    }

    /** Only a pending job can be canceled: the event is written exactly then, and it cancels that job. */
    method CancelJob(jobId: JobId, at: int) returns (answer: Answer)
      requires Unique(jobs)
      ensures answer == CancelAnswer(jobs, jobId, at)
      ensures answer.Appended? <==> exists x :: x in jobs && x.jobId == jobId && x.status == Pending
      ensures answer.NotFound? <==> forall x :: x in jobs ==> x.jobId != jobId
      ensures answer.Appended? ==> forall x :: x in Applied(jobs, answer.event) && x.jobId == jobId ==> x.status == Canceled
    {
      AnswersExactly(jobs, jobId, at);
      var k := Position(jobs, jobId);
      if k == |jobs| { return NotFound; }
      if jobs[k].status != Pending { return NotCancelable; }
      answer := Appended(Cancel(at, jobId));
      CancelTakes(jobs, at, jobId);
    }

    /** Only a job that failed or was canceled can be retried: it becomes pending again. */
    method RetryJob(jobId: JobId) returns (answer: Answer)
      requires Unique(jobs)
      ensures answer == RetryAnswer(jobs, jobId)
      ensures answer.Appended? <==> exists x :: x in jobs && x.jobId == jobId && x.status in {Broken, Canceled}
      ensures answer.NotFound? <==> forall x :: x in jobs ==> x.jobId != jobId
      ensures answer.Appended? ==> forall x :: x in Applied(jobs, answer.event) && x.jobId == jobId ==> x.status == Pending
    {
      AnswersExactly(jobs, jobId, 0);
      var k := Position(jobs, jobId);
      if k == |jobs| { return NotFound; }
      if jobs[k].status != Broken && jobs[k].status != Canceled { return NotRetryable; }
      answer := Appended(RetryRequested(jobId));
      RetryTakes(jobs, jobId);
    }
  }

  function CancelAnswer(jobs: seq<Job>, jobId: JobId, at: int): Answer {
    var k := Position(jobs, jobId);
    if k == |jobs| then NotFound
    else if jobs[k].status == Pending then Appended(Cancel(at, jobId)) else NotCancelable
  }

  function RetryAnswer(jobs: seq<Job>, jobId: JobId): Answer {
    var k := Position(jobs, jobId);
    if k == |jobs| then NotFound
    else if jobs[k].status in {Broken, Canceled} then Appended(RetryRequested(jobId)) else NotRetryable
  }

  lemma AnswersExactly(jobs: seq<Job>, jobId: JobId, at: int)
    requires Unique(jobs)
    ensures CancelAnswer(jobs, jobId, at).Appended? <==> exists x :: x in jobs && x.jobId == jobId && x.status == Pending
    ensures RetryAnswer(jobs, jobId).Appended? <==> exists x :: x in jobs && x.jobId == jobId && x.status in {Broken, Canceled}
    ensures CancelAnswer(jobs, jobId, at).NotFound? <==> forall x :: x in jobs ==> x.jobId != jobId
    ensures RetryAnswer(jobs, jobId).NotFound? <==> forall x :: x in jobs ==> x.jobId != jobId
  {
    var k := Position(jobs, jobId);
    if k < |jobs| {
      assert jobs[k] in jobs;
      forall x | x in jobs && x.jobId == jobId ensures x == jobs[k] {
        var i :| 0 <= i < |jobs| && jobs[i] == x;
      }
    }
  }

  lemma CancelTakes(jobs: seq<Job>, at: int, jobId: JobId)
    requires Unique(jobs)
    ensures forall x :: x in Applied(jobs, Cancel(at, jobId)) && x.jobId == jobId ==> x.status == Canceled
  {
    var k := Position(jobs, jobId);
    assert forall i :: 0 <= i < |jobs| && i != k ==> jobs[i].jobId != jobId;
    var next := if k < |jobs| then jobs[k := Change(jobs[k], Cancel(at, jobId))] else jobs;
    forall x | x in next && x.jobId == jobId ensures x.status == Canceled {
      var i :| 0 <= i < |next| && next[i] == x;
    }
  }

  lemma RetryTakes(jobs: seq<Job>, jobId: JobId)
    requires Unique(jobs)
    ensures forall x :: x in Applied(jobs, RetryRequested(jobId)) && x.jobId == jobId ==> x.status == Pending
  {
    var k := Position(jobs, jobId);
    assert forall i :: 0 <= i < |jobs| && i != k ==> jobs[i].jobId != jobId;
    var next := if k < |jobs| then jobs[k := Change(jobs[k], RetryRequested(jobId))] else jobs;
    forall x | x in next && x.jobId == jobId ensures x.status == Pending {
      var i :| 0 <= i < |next| && next[i] == x;
    }
  }

  lemma CompletedStep(jobs: seq<Job>, i: nat, front: seq<Job>)
    requires i < |jobs|
    ensures front + Completed(jobs[i..]) == (if Done(jobs[i]) then front + [jobs[i]] else front) + Completed(jobs[i + 1..])
  {
    assert jobs[i..][1..] == jobs[i + 1..];
  }

  lemma WithoutStep(jobs: seq<Job>, dropped: seq<Job>, i: nat)
    requires i < |dropped|
    ensures Without(Without(jobs, JobIds(dropped[..i])), [dropped[i].jobId]) == Without(jobs, JobIds(dropped[..i + 1]))
  {
    WithoutTwice(jobs, JobIds(dropped[..i]), [dropped[i].jobId]);
    IdsStep(dropped, i);
  }

  lemma PrunedIs(jobs: seq<Job>, sorted: seq<Job>, n: nat)
    requires sorted == SortByFinish(Completed(jobs)) && |sorted| == |Completed(jobs)| == MAX_COMPLETED_JOBS + n && n > 0
    ensures Pruned(jobs) == Without(jobs, JobIds(sorted[..n]))
  {
  }

  lemma IdsStep(jobs: seq<Job>, i: nat)
    requires i < |jobs|
    ensures JobIds(jobs[..i + 1]) == JobIds(jobs[..i]) + [jobs[i].jobId]
  {
  }

  lemma {:induction false} WithoutTwice(jobs: seq<Job>, a: seq<JobId>, b: seq<JobId>)
    ensures Without(Without(jobs, a), b) == Without(jobs, a + b)
  {
    if jobs == [] {
    } else {
      WithoutTwice(jobs[1..], a, b);
    }
  }
}
