/**
 * Every drain of the workflows that `Drain` describes in full is a drain in the sense of `AnyDrain`: forget
 * which item each task belongs to, and what it does to the run.  So what holds of any drain holds of these.
 */
module DrainRefinement {
  import opened Common
  import opened Workflow
  import opened WorkflowGraph
  import opened StateMachine
  import opened RunModel
  import opened Readiness
  import opened Runs
  import opened Scheduling
  import opened Drain
  import opened DrainTasks
  import Any = AnyDrain

  /** The results of settled tasks, with repetitions. */
  ghost function Results(settled: map<nat, TaskResult>): (r: multiset<TaskResult>)
    ensures |r| == |settled.Keys|
    ensures forall i :: i in settled ==> settled[i] in r
    decreases settled.Keys
  {
    if settled == map[] then multiset{}
    else
      var i :| i in settled;
      assert settled.Keys == (settled - {i}).Keys + {i};
      Results(settled - {i}) + multiset{settled[i]}
  }

  lemma OneResult(settled: map<nat, TaskResult>) returns (i: nat)
    requires settled != map[]
    ensures i in settled && Results(settled) == Results(settled - {i}) + multiset{settled[i]}
  {
    i :| i in settled && Results(settled) == Results(settled - {i}) + multiset{settled[i]};
  }

  lemma {:induction false} ResultsWithout(settled: map<nat, TaskResult>, i: nat)
    requires i in settled
    ensures Results(settled) == Results(settled - {i}) + multiset{settled[i]}
    decreases settled.Keys
  {
    hide Results;
    var k := OneResult(settled);
    if k == i {
    } else {
      var a, b := settled - {k}, settled - {i};
      ResultsWithout(a, i);
      ResultsWithout(b, k);
      assert a - {i} == b - {k};
    }
  }

  lemma ResultsWith(settled: map<nat, TaskResult>, i: nat, result: TaskResult)
    requires i !in settled
    ensures Results(settled[i := result]) == Results(settled) + multiset{result}
  {
    hide Results;
    var more := settled[i := result];
    ResultsWithout(more, i);
    assert more - {i} == settled;
  }

  lemma {:induction false} ResultsCollected(settled: map<nat, TaskResult>, gone: set<nat>) returns (results: multiset<TaskResult>)
    requires gone <= settled.Keys
    ensures results <= Results(settled) && Results(settled - gone) == Results(settled) - results
    ensures Hold(results, settled, gone)
    decreases gone
  {
    hide Results;
    if gone == {} {
      results := multiset{};
      assert settled - gone == settled;
    } else {
      var i :| i in gone;
      var less := settled - {i};
      var rest := ResultsCollected(less, gone - {i});
      ResultsWithout(settled, i);
      LessGone(settled, gone, i);
      results := rest + multiset{settled[i]};
      Shift(Results(less), rest, multiset{settled[i]});
      HoldMore(rest, settled, gone, i);
      hide Hold;
    }
  }

  lemma LessGone(settled: map<nat, TaskResult>, gone: set<nat>, i: nat)
    requires i in gone
    ensures settled - gone == settled - {i} - (gone - {i})
  {
  }

  ghost predicate Hold(results: multiset<TaskResult>, settled: map<nat, TaskResult>, gone: set<nat>) {
    forall i :: i in gone && i in settled ==> settled[i] in results
  }

  lemma HoldMore(rest: multiset<TaskResult>, settled: map<nat, TaskResult>, gone: set<nat>, i: nat)
    requires i in gone && i in settled && Hold(rest, settled - {i}, gone - {i})
    ensures Hold(rest + multiset{settled[i]}, settled, gone)
  {
    forall k | k in gone && k in settled ensures settled[k] in rest + multiset{settled[i]} {
      if k != i { assert (settled - {i})[k] in rest; }
    }
  }

  lemma Shift<T>(a: multiset<T>, b: multiset<T>, c: multiset<T>)
    requires b <= a
    ensures b + c <= a + c && (a + c) - (b + c) == a - b
  {
  }

  ghost function Abstract(s: State): Any.Pool {
    Any.Pool(|s.executing|, Results(s.settled), s.executed, s.hardFailed, s.stop, s.phase)
  }

  /** What `Launch` does, as seen by a drain that knows no tasks by name. */
  function Starting(g: Graph): Any.Effects {
    (n: int, run: Run, c: Candidate) =>
      if c.NodeItem? && c.index < |run.items| then
        var x := run.items[c.index];
        if x.attempt >= MaxAttempts(g, x.nodeId) then
          (run.(items := run.items[c.index := x.(status := Failed)]), Some(TaskFailed(true)))
        else
          (run.(items := run.items[c.index := x.(status := Running, attempt := x.attempt + 1, wakeAt := NoWake)]), None)
      else (run, None)
  }

  // ---------------------------------------------------------------- one stretch of the loop

  ghost predicate LaunchedAs(cfg: Config, s: State, i: nat, n: int, t: State)
    requires i < |s.run.items|
  {
    var started := Starting(cfg.g)(n, s.run, NodeItem(i));
    started.0 == t.run && Any.Launch(Abstract(s).(executed := n), started.1) == Abstract(t).(executed := n + 1)
  }

  lemma LaunchRefines(cfg: Config, s: State, i: nat, n: int)
    requires i < |s.run.items| && i !in s.executing && i !in s.settled
    ensures LaunchedAs(cfg, s, i, n, Launch(cfg, s, i))
  {
    var x := s.run.items[i];
    hide LaunchedAs, Abstract;
    if x.attempt >= MaxAttempts(cfg.g, x.nodeId) {
      LaunchFails(cfg, s, i, n);
    } else {
      LaunchRuns(cfg, s, i, n);
    }
  }

  lemma LaunchFails(cfg: Config, s: State, i: nat, n: int)
    requires i < |s.run.items| && i !in s.settled && s.run.items[i].attempt >= MaxAttempts(cfg.g, s.run.items[i].nodeId)
    ensures LaunchedAs(cfg, s, i, n, Launch(cfg, s, i))
  {
    hide Abstract, MaxAttempts, Any.Launch;
    MoreSettled(s, Launch(cfg, s, i).run, i, n);
  }

  lemma LaunchRuns(cfg: Config, s: State, i: nat, n: int)
    requires i < |s.run.items| && i !in s.executing && s.run.items[i].attempt < MaxAttempts(cfg.g, s.run.items[i].nodeId)
    ensures LaunchedAs(cfg, s, i, n, Launch(cfg, s, i))
  {
    hide Abstract, MaxAttempts, Any.Launch;
    MoreUnder(s, Launch(cfg, s, i).run, i, n);
  }

  lemma MoreUnder(s: State, run: Run, i: nat, n: int)
    requires i !in s.executing
    ensures Any.Launch(Abstract(s).(executed := n), None) == Abstract(s.(run := run, executing := s.executing + {i})).(executed := n + 1)
  {
    hide Results;
  }

  lemma MoreSettled(s: State, run: Run, i: nat, n: int)
    requires i !in s.settled
    ensures Any.Launch(Abstract(s).(executed := n), Some(TaskFailed(true)))
         == Abstract(s.(run := run, settled := s.settled[i := TaskFailed(true)])).(executed := n + 1)
  {
    hide Results;
    ResultsWith(s.settled, i, TaskFailed(true));
  }

  /** Both machines launch the first of a batch and then the others. */
  lemma OneLaunched(cfg: Config, s: State, batch: seq<Candidate>, p: Any.Pool)
    requires batch != [] && batch[0].NodeItem? && batch[0].index < |s.run.items|
    ensures LaunchAll(cfg, s, batch) == LaunchAll(cfg, Launch(cfg, s, batch[0].index), batch[1..])
    ensures var started := Starting(cfg.g)(p.executed, s.run, batch[0]);
            Any.LaunchAll(Starting(cfg.g), s.run, p, batch)
              == Any.LaunchAll(Starting(cfg.g), started.0, Any.Launch(p, started.1), batch[1..])
  {
    hide Launch, Any.Launch;
  }

  lemma FirstLaunch(cfg: Config, s: State, batch: seq<Candidate>, n: int) returns (t: State)
    requires Tasks(cfg, s) && FreshBatch(cfg.g, s.run.items, batch) && batch != []
    ensures Tasks(cfg, t) && FreshBatch(cfg.g, t.run.items, batch[1..])
    ensures LaunchAll(cfg, s, batch) == LaunchAll(cfg, t, batch[1..])
    ensures Any.LaunchAll(Starting(cfg.g), s.run, Abstract(s).(executed := n), batch)
         == Any.LaunchAll(Starting(cfg.g), t.run, Abstract(t).(executed := n + 1), batch[1..])
  {
    var i := FirstOfBatch(cfg, s, batch);
    t := Launch(cfg, s, i);
    hide Occupied, Results, LaunchAll, Any.LaunchAll, Starting;
    LaunchOne(cfg, s, i);
    LaunchItems(cfg, s, i);
    TailFresh(cfg.g, s.run.items, t.run.items, batch);
    LaunchRefines(cfg, s, i, n);
    hide Abstract, Any.Launch, Launch;
    OneLaunched(cfg, s, batch, Abstract(s).(executed := n));
  }

  lemma FirstOfBatch(cfg: Config, s: State, batch: seq<Candidate>) returns (i: nat)
    requires Tasks(cfg, s) && FreshBatch(cfg.g, s.run.items, batch) && batch != []
    ensures batch[0] == NodeItem(i) && i < |s.run.items| && s.run.items[i].status == Queued && Enabled(cfg.g, s.run.items[i].nodeId)
    ensures i !in s.executing && i !in s.settled
  {
    assert batch[0] in batch;
    i := batch[0].index;
    assert i !in s.executing + s.settled.Keys by { assert !Occupied(cfg.g, s.run.items, i); }
  }

  lemma {:induction false} LaunchAllRefines(cfg: Config, s: State, batch: seq<Candidate>, n: int)
    requires Tasks(cfg, s) && FreshBatch(cfg.g, s.run.items, batch)
    ensures var t := LaunchAll(cfg, s, batch);
            Any.LaunchAll(Starting(cfg.g), s.run, Abstract(s).(executed := n), batch)
              == (t.run, Abstract(t).(executed := n + |batch|))
    decreases |batch|
  {
    hide Tasks, FreshBatch, Abstract, Launch, Starting;
    if batch == [] {
    } else {
      var t := FirstLaunch(cfg, s, batch, n);
      LaunchAllRefines(cfg, t, batch[1..], n + 1);
    }
    hide LaunchAll, Any.LaunchAll;
  }

  /** The invariant: a seeded run, and every task an item of its own. */
  ghost predicate Sound(cfg: Config, s: State) {
    Known(s.run) && Tasks(cfg, s)
  }

  lemma SoundSame(cfg: Config, s: State, t: State)
    requires Sound(cfg, s) && t.run == s.run && t.executing == s.executing && t.settled == s.settled
    ensures Sound(cfg, t)
  {
  }

  lemma SoundLook(cfg: Config, s: State, found: Found)
    requires Sound(cfg, s) && Handover(cfg, s.run, found)
    ensures Sound(cfg, s.(run := found.run))
  {
    TasksPreserved(cfg, s, found.run);
    KnownAfter(s.run, found.run);
  }

  lemma BatchRefines(cfg: Config, s: State, batch: seq<Candidate>)
    requires Sound(cfg, s) && FreshBatch(cfg.g, s.run.items, batch)
    ensures var t := LaunchAll(cfg, s, batch);
            && Sound(cfg, t)
            && Any.LaunchAll(Starting(cfg.g), s.run, Abstract(s), batch) == (t.run, Abstract(t).(executed := s.executed + |batch|))
  {
    hide Results, FreshBatch, LaunchAll, Any.LaunchAll, Starting, Tasks, Known;
    LaunchesCount(cfg, s, batch);
    KnownAfter(s.run, LaunchAll(cfg, s, batch).run);
    LaunchAllRefines(cfg, s, batch, s.executed);
    assert Abstract(s).(executed := s.executed) == Abstract(s);
  }

  lemma RoundRefines(cfg: Config, s: State, found: Found)
    requires Sound(cfg, s) && Active(s) < MaxConcurrency(cfg) && Handover(cfg, s.run, found)
    ensures var t := Round(cfg, s, found);
            && Sound(cfg, t)
            && Any.LaunchAll(Starting(cfg.g), found.run, Abstract(s), FirstOf(found.candidates, MaxConcurrency(cfg) - Active(s)))
                 == (t.run, Abstract(t))
  {
    hide Results, LaunchAll, Any.LaunchAll, Starting, Known, Tasks, FirstOf, SameShape, Preserves, FreshBatch;
    var batch := FirstOf(found.candidates, MaxConcurrency(cfg) - Active(s));
    var s1 := s.(run := found.run);
    SoundLook(cfg, s, found);
    FirstOfFresh(cfg, found.run.items, found.candidates, MaxConcurrency(cfg) - Active(s));
    BatchRefines(cfg, s1, batch);
    SoundSame(cfg, LaunchAll(cfg, s1, batch), Round(cfg, s, found));
  }

  lemma HandoverHere(cfg: Config, look: Look, s: State)
    requires Faithful(cfg, look) && Sound(cfg, s) && look(s.run).Some?
    ensures Handover(cfg, s.run, look(s.run).value)
  {
  }

  lemma SizeIsActive(s: State)
    ensures var p := Abstract(s);
            && Any.Size(p) == Active(s) && p.executed == s.executed && p.stop == s.stop
            && Abstract(s.(phase := Crashed)) == p.(phase := Crashed) && Abstract(s.(stop := true)) == p.(stop := true)
    ensures forall run :: Abstract(s.(run := run)) == Abstract(s)
  {
    hide Results;
  }

  lemma RoundCounts(cfg: Config, s: State, found: Found)
    requires Active(s) < MaxConcurrency(cfg) && found.candidates != []
    ensures Round(cfg, s, found).executed > s.executed
  {
    hide LaunchAll;
  }

  lemma {:induction false} FillRefines(cfg: Config, look: Look, aborted: bool, s: State)
    requires Faithful(cfg, look) && Sound(cfg, s)
    ensures var t := Fill(cfg, look, aborted, s);
            Sound(cfg, t) && Any.Fill(cfg, look, Starting(cfg.g), aborted, s.run, Abstract(s)) == (t.run, Abstract(t))
    decreases Limit(cfg) - s.executed
  {
    hide Results, LaunchAll, Any.LaunchAll, Starting, Sound, Handover, Faithful, Abstract, Round, FirstOf;
    SizeIsActive(s);
    if s.stop || aborted || Active(s) >= MaxConcurrency(cfg) || s.executed >= Limit(cfg) {
    } else if look(s.run).None? {
      SoundSame(cfg, s, s.(phase := Crashed));
    } else {
      var found := look(s.run).value;
      HandoverHere(cfg, look, s);
      if found.candidates == [] {
        SoundLook(cfg, s, found);
      } else {
        RoundRefines(cfg, s, found);
        RoundCounts(cfg, s, found);
        var t := Round(cfg, s, found);
        SizeIsActive(t);
        if cfg.manualTick {
          SoundSame(cfg, t, t.(stop := true));
        } else {
          FillRefines(cfg, look, aborted, t);
        }
      }
    }
  }

  lemma LeaveSound(cfg: Config, s: State, why: ExitReason)
    requires Sound(cfg, s)
    ensures Sound(cfg, Leave(s, why))
  {
    SyncKeepsShape(s.run, Leave(s, why).run.nodes, s.run.items);
    KnownAfter(s.run, Leave(s, why).run);
  }

  lemma BodyRefines(cfg: Config, look: Look, aborted: bool, s: State)
    requires Faithful(cfg, look) && Sound(cfg, s)
    ensures var t := Body(cfg, look, aborted, s);
            Sound(cfg, t) && Any.Body(cfg, look, Starting(cfg.g), aborted, s.run, Abstract(s)).1 == Abstract(t)
  {
    hide Results, Starting, Sound, Fill, Any.Fill, SyncNodes, Faithful;
    var s1 := if aborted then s.(stop := true) else s;
    SoundSame(cfg, s, s1);
    if s1.executed >= Limit(cfg) {
      LeaveSound(cfg, s1, LimitReached);
    } else {
      FillRefines(cfg, look, aborted, s1);
      FilledRefines(cfg, Fill(cfg, look, aborted, s1));
    }
  }

  lemma FilledRefines(cfg: Config, s: State)
    requires Sound(cfg, s)
    ensures Sound(cfg, Leave(s, NothingLeft)) && Abstract(Leave(s, NothingLeft)) == Abstract(s).(phase := Exited(NothingLeft))
    ensures Any.Size(Abstract(s)) == Active(s)
  {
    LeaveSound(cfg, s, NothingLeft);
    hide Results, SyncNodes;
  }

  // ---------------------------------------------------------------- steps

  /** A step of the drain is one of the general drain, or one that it does not see. */
  ghost predicate Refines(cfg: Config, a: Any.Pool, b: Any.Pool) {
    a == b || exists input :: Any.Moves(cfg, a, input, b)
  }

  lemma RaiseRefines(cfg: Config, s: State, i: nat)
    requires Sound(cfg, s) && i in s.executing && !s.phase.Crashed?
    ensures var t := s.(phase := Crashed); Sound(cfg, t) && Refines(cfg, Abstract(s), Abstract(t))
  {
    hide Results;
    SoundSame(cfg, s, s.(phase := Crashed));
    assert Any.Moves(cfg, Abstract(s), Any.Raise, Abstract(s.(phase := Crashed)));
  }

  /** A change of node statuses is not seen. */
  lemma MarkRefines(cfg: Config, s: State, nodeId: Id, status: Status, begun: set<nat>, ended: map<nat, Verdict>)
    requires Sound(cfg, s) && MarkNode(s.run, nodeId, status).Some?
    ensures var t := s.(run := MarkNode(s.run, nodeId, status).value, begun := begun, ended := ended);
            Sound(cfg, t) && Abstract(s) == Abstract(t)
  {
    hide Results;
    MarkKeepsShape(s.run, nodeId, status);
    KnownAfter(s.run, MarkNode(s.run, nodeId, status).value);
  }

  lemma BeginRefines(cfg: Config, s: State, i: nat)
    requires Sound(cfg, s) && Allowed(cfg, s, Begin(i))
    ensures var t := Step(cfg, s, Begin(i)); Sound(cfg, t) && Refines(cfg, Abstract(s), Abstract(t))
  {
    hide Sound, MarkNode, Abstract;
    var id := s.run.items[i].nodeId;
    if MarkNode(s.run, id, Running).None? {
      RaiseRefines(cfg, s, i);
    } else {
      MarkRefines(cfg, s, id, Running, s.begun + {i}, s.ended);
    }
  }

  lemma EndRefines(cfg: Config, s: State, i: nat)
    requires Sound(cfg, s) && Allowed(cfg, s, End(i))
    ensures var t := Step(cfg, s, End(i)); Sound(cfg, t) && Refines(cfg, Abstract(s), Abstract(t))
  {
    hide Sound, MarkNode, Abstract;
    var id, verdict := s.run.items[i].nodeId, VerdictOf(cfg, s.run.items[i].nodeId);
    if verdict.Succeed? && MarkNode(s.run, id, Success).Some? {
      MarkRefines(cfg, s, id, Success, s.begun, s.ended[i := Succeed]);
    } else if MarkNode(s.run, id, Failed).None? {
      RaiseRefines(cfg, s, i);
    } else {
      MarkRefines(cfg, s, id, Failed, s.begun, s.ended[i := if verdict.Succeed? then Fail(true, false) else verdict]);
    }
  }

  lemma DoneSound(cfg: Config, s: State, i: nat)
    requires Sound(cfg, s) && Allowed(cfg, s, Done(i)) && !Finish(cfg, s, i).phase.Crashed?
    ensures Sound(cfg, Finish(cfg, s, i))
  {
    var t := Finish(cfg, s, i);
    assert Occupied(cfg.g, s.run.items, i);
    FinishItems(cfg, s, i);
    KnownAfter(s.run, t.run);
    FinishFields(cfg, s, i);
    TasksFinished(cfg, s, t, i);
    hide *;
  }

  lemma TaskSettles(cfg: Config, s: State, t: State, i: nat, result: TaskResult)
    requires i in s.executing && i !in s.settled && !s.phase.Crashed?
    requires t == s.(run := t.run, executing := s.executing - {i}, begun := t.begun, ended := t.ended, settled := s.settled[i := result])
    ensures Any.Moves(cfg, Abstract(s), Any.Settle(result), Abstract(t))
  {
    hide Results;
    ResultsWith(s.settled, i, result);
  }

  lemma DoneRefines(cfg: Config, s: State, i: nat)
    requires Sound(cfg, s) && Allowed(cfg, s, Done(i))
    ensures var t := Step(cfg, s, Done(i)); Sound(cfg, t) && Refines(cfg, Abstract(s), Abstract(t))
  {
    var t, result := Finish(cfg, s, i), ResultOf(s.ended[i]);
    assert i !in s.settled;
    hide Sound, Abstract;
    if TransitionStatus(s.run.items[i].status, if s.ended[i].Succeed? then Success else Failed, None).None? {
      RaiseRefines(cfg, s, i);
    } else {
      DoneSound(cfg, s, i);
      FinishFields(cfg, s, i);
      TaskSettles(cfg, s, t, i, result);
    }
    hide Finish, Promote, Any.Moves;
  }

  lemma CollectRefines(cfg: Config, s: State, seen: nat, gone: set<nat>, aborted: bool) returns (results: multiset<TaskResult>)
    requires Sound(cfg, s) && seen in gone && gone <= s.settled.Keys
    ensures var t := Collect(s, seen, gone, aborted);
            Sound(cfg, t) && Abstract(t) == Any.Collect(Abstract(s), s.settled[seen], results, aborted)
    ensures s.settled[seen] in results && results <= Results(s.settled)
  {
    results := ResultsCollected(s.settled, gone);
    CollectSound(cfg, s, seen, gone, aborted);
    hide Results, Sound;
  }

  lemma CollectSound(cfg: Config, s: State, seen: nat, gone: set<nat>, aborted: bool)
    requires Sound(cfg, s) && seen in gone && gone <= s.settled.Keys
    ensures Sound(cfg, Collect(s, seen, gone, aborted))
  {
    hide Known, Occupied;
  }

  lemma ResumeRefines(cfg: Config, s: State, seen: nat, gone: set<nat>, now: int, aborted: bool)
    requires NodesOnly(cfg.g) && Sound(cfg, s) && Allowed(cfg, s, Resume(seen, gone, now, aborted))
    ensures var t := Step(cfg, s, Resume(seen, gone, now, aborted)); Sound(cfg, t) && Refines(cfg, Abstract(s), Abstract(t))
  {
    hide Sound, Results, LookAt, NodesOnly, Body, Any.Body, Starting, Any.Collect, Abstract;
    var results := CollectRefines(cfg, s, seen, gone, aborted);
    var t := Step(cfg, s, Resume(seen, gone, now, aborted));
    ResumedRefines(cfg, s, Collect(s, seen, gone, aborted), now, aborted, t);
    CollectedFlags(s, seen, gone, aborted);
    var input := Any.Resume(s.settled[seen], results, now, aborted, s.run, Starting(cfg.g));
    assert Any.Moves(cfg, Abstract(s), input, Abstract(t));
  }

  lemma CollectedFlags(s: State, seen: nat, gone: set<nat>, aborted: bool)
    requires seen in gone && gone <= s.settled.Keys
    ensures Abstract(s).phase == s.phase && Abstract(s).done == Results(s.settled)
    ensures Abstract(Collect(s, seen, gone, aborted)).stop == Collect(s, seen, gone, aborted).stop
  {
    hide Results;
  }

  lemma ResumedRefines(cfg: Config, s: State, s1: State, now: int, aborted: bool, t: State)
    requires NodesOnly(cfg.g) && Sound(cfg, s1) && s1.run == s.run
    requires t == if cfg.manualTick && s1.stop then s1.(phase := WaitingForAll) else Body(cfg, LookAt(cfg, now), aborted, s1)
    ensures Sound(cfg, t)
    ensures Abstract(t) ==
              if cfg.manualTick && s1.stop then Abstract(s1).(phase := WaitingForAll)
              else Any.Body(cfg, LookAt(cfg, now), Starting(cfg.g), aborted, s.run, Abstract(s1)).1
  {
    hide Sound, Results, LookAt, NodesOnly, Body, Any.Body, Starting;
    if cfg.manualTick && s1.stop {
      SoundSame(cfg, s1, t);
    } else {
      BodyRefinesHere(cfg, now, aborted, s1);
    }
  }

  lemma BodyRefinesHere(cfg: Config, now: int, aborted: bool, s: State)
    requires NodesOnly(cfg.g) && Sound(cfg, s)
    ensures var t := Body(cfg, LookAt(cfg, now), aborted, s);
            && Sound(cfg, t)
            && Any.Body(cfg, LookAt(cfg, now), Starting(cfg.g), aborted, s.run, Abstract(s)).1 == Abstract(t)
  {
    hide *;
    LookIsFaithful(cfg, now);
    BodyRefines(cfg, LookAt(cfg, now), aborted, s);
  }

  lemma AllDoneRefines(cfg: Config, s: State)
    requires Sound(cfg, s) && Allowed(cfg, s, AllDone)
    ensures var t := Step(cfg, s, AllDone); Sound(cfg, t) && Refines(cfg, Abstract(s), Abstract(t))
  {
    LeaveSound(cfg, s.(settled := map[]), TickDone);
    assert Results(map[]) == multiset{};
    hide Sound, Results;
    assert Any.Moves(cfg, Abstract(s), Any.AllDone, Abstract(Step(cfg, s, AllDone)));
  }

  lemma StepRefines(cfg: Config, s: State, input: Input)
    requires NodesOnly(cfg.g) && Sound(cfg, s) && Allowed(cfg, s, input)
    ensures Sound(cfg, Step(cfg, s, input)) && Refines(cfg, Abstract(s), Abstract(Step(cfg, s, input)))
  {
    match input
    case Begin(i) => BeginRefines(cfg, s, i);
    case End(i) => EndRefines(cfg, s, i);
    case Done(i) => DoneRefines(cfg, s, i);
    case Resume(seen, gone, now, aborted) => ResumeRefines(cfg, s, seen, gone, now, aborted);
    case AllDone => AllDoneRefines(cfg, s);
  }

  // ---------------------------------------------------------------- whole drains

  lemma StartRefines(cfg: Config, now: int, aborted: bool, run: Run)
    requires NodesOnly(cfg.g) && Known(run)
    ensures var s := Start(cfg, now, aborted, run); Sound(cfg, s) && Any.Started(cfg, Abstract(s))
  {
    LookIsFaithful(cfg, now);
    assert Abstract(Initial(run)) == Any.EMPTY && Sound(cfg, Initial(run));
    hide Sound, Known, NodesOnly, Results, Abstract, Body, Any.Body, LookAt, Faithful;
    BodyRefines(cfg, LookAt(cfg, now), aborted, Initial(run));
    assert Abstract(Start(cfg, now, aborted, run)) == Any.Start(cfg, now, aborted, run, Starting(cfg.g));
  }

  /** The general drain goes along, or stays where it is. */
  lemma GoAlong(cfg: Config, inputs: seq<Any.Input>, pools: seq<Any.Pool>, p: Any.Pool)
      returns (ins: seq<Any.Input>, outs: seq<Any.Pool>)
    requires Any.IsDrain(cfg, inputs, pools) && Refines(cfg, pools[|inputs|], p)
    ensures Any.IsDrain(cfg, ins, outs) && outs[|ins|] == p && |ins| >= |inputs| && outs[..|pools|] == pools
  {
    hide Any.Moves, Any.Started;
    if p == pools[|inputs|] {
      ins, outs := inputs, pools;
    } else {
      var input :| Any.Moves(cfg, pools[|inputs|], input, p);
      var next := (a: Any.Pool, input: Any.Input, b: Any.Pool) => Any.Moves(cfg, a, input, b);
      DrivenSnoc(pools, inputs, next, input, p);
      ins, outs := inputs + [input], pools + [p];
      assert Driven(outs, ins, next);
    }
  }

  /**
   * Every drain of a seeded run of a workflow without groups and routing nodes is a drain in the general
   * sense: step by step, up to the steps in which only a task and its node move.
   */
  lemma {:induction false} DrainRefines(cfg: Config, run: Run, states: seq<State>)
      returns (inputs: seq<Any.Input>, pools: seq<Any.Pool>)
    requires Known(run) && IsDrain(cfg, run, states)
    ensures Any.IsDrain(cfg, inputs, pools)
    ensures pools[|inputs|] == Abstract(states[|states| - 1])
    ensures forall k :: 0 <= k < |states| ==> Abstract(states[k]) in pools
    ensures Sound(cfg, states[|states| - 1])
    decreases |states|
  {
    hide Known, Sound, Abstract, NodesOnly, Start, Step, Any.Started, Any.Moves;
    if |states| == 1 {
      var now, aborted :| states[0] == Start(cfg, now, aborted, run);
      StartRefines(cfg, now, aborted, run);
      inputs, pools := [], [Abstract(states[0])];
    } else {
      var n := |states| - 2;
      var front := states[..n + 1];
      FrontIsDrain(cfg, run, states);
      var before, passed := DrainRefines(cfg, run, front);
      LastStepRefines(cfg, run, states);
      inputs, pools := GoAlong(cfg, before, passed, Abstract(states[n + 1]));
      forall k | 0 <= k < |states| ensures Abstract(states[k]) in pools {
        if k <= n {
          assert front[k] == states[k];
          assert Abstract(states[k]) in pools[..|passed|];
        }
      }
    }
  }

  lemma LastStepRefines(cfg: Config, run: Run, states: seq<State>)
    requires |states| > 1 && IsDrain(cfg, run, states) && Sound(cfg, states[|states| - 2])
    ensures var a, b := states[|states| - 2], states[|states| - 1];
            Sound(cfg, b) && Refines(cfg, Abstract(a), Abstract(b))
  {
    hide Sound, Abstract, Step, Start, Allowed, NodesOnly;
    var next, n := (a: State, b: State) => Next(cfg, a, b), |states| - 2;
    assert next(states[n], states[n + 1]);
    var step :| Allowed(cfg, states[n], step) && states[n + 1] == Step(cfg, states[n], step);
    StepRefines(cfg, states[n], step);
  }

  lemma FrontIsDrain(cfg: Config, run: Run, states: seq<State>)
    requires |states| > 1 && IsDrain(cfg, run, states)
    ensures IsDrain(cfg, run, states[..|states| - 1])
  {
    hide Next, Start, NodesOnly;
    LinkedFront(states, (a: State, b: State) => Next(cfg, a, b));
    assert states[..|states| - 1][0] == states[0];
  }

  /** So the bounds of any drain hold for the tasks by name. */
  lemma TasksBounded(cfg: Config, run: Run, states: seq<State>, k: nat)
    requires Known(run) && IsDrain(cfg, run, states) && k < |states|
    ensures Active(states[k]) <= MaxConcurrency(cfg) && 0 <= states[k].executed <= Any.Cap(cfg) - 1
  {
    var inputs, pools := DrainRefines(cfg, run, states);
    Any.DrainIsBounded(cfg, inputs, pools);
    hide Known, Sound, IsDrain, Any.IsDrain, Results;
    var m :| 0 <= m < |pools| && pools[m] == Abstract(states[k]);
    assert Any.Within(cfg, pools[m]);
  }
}
