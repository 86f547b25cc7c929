/**
 * The drain of any workflow looks at every halting result when only one task can be active at once, and otherwise
 * goes on launching after a missed one only under settings that leave room for it.
 */
module HaltingResults {
  import opened RunModel
  import opened Readiness
  import opened Runs
  import opened Scheduling
  import opened AnyDrain

  /** A halting result leaves the active set, whether or not the loop looks at it. */
  ghost predicate DropsHalt(p: Pool, input: Input) {
    match input
    case Resume(_, gone, _, _, _, _) => TaskFailed(true) in gone
    case AllDone => TaskFailed(true) in p.done
    case _ => false
  }

  /** A halting result has left the active set, and the drain does not report a hard failure. */
  ghost predicate MissesHalt(cfg: Config, inputs: seq<Input>, pools: seq<Pool>) {
    && IsDrain(cfg, inputs, pools)
    && !pools[|inputs|].hardFailed
    && exists k :: 0 <= k < |inputs| && DropsHalt(pools[k], inputs[k])
  }

  // ---------------------------------------------------------------- one slot

  /** With one slot nothing is left to wait for once its result has been looked at. */
  ghost predicate OneSlot(cfg: Config, p: Pool) {
    Bounded(cfg, p) && (p.phase.WaitingForAll? ==> Size(p) == 0)
  }

  lemma OnlyOne(done: multiset<TaskResult>, gone: multiset<TaskResult>, seen: TaskResult)
    requires |done| <= 1 && seen in gone && gone <= done
    ensures gone == multiset{seen} && done == gone
  {
    assert gone == multiset{seen} + (gone - multiset{seen});
    assert done == gone + (done - gone);
  }

  lemma OneSlotStep(cfg: Config, p: Pool, input: Input)
    requires MaxConcurrency(cfg) == 1 && OneSlot(cfg, p) && Allowed(p, input)
    ensures OneSlot(cfg, Step(cfg, p, input))
    ensures DropsHalt(p, input) ==> LooksAtHalt(input)
  {
    StepBounds(cfg, p, input);
    match input
    case Resume(seen, gone, now, aborted, run, effects) =>
      OnlyOne(p.done, gone, seen);
      BodyPhase(cfg, LookAt(cfg, now), effects, aborted, run, Collect(p, seen, gone, aborted));
    case _ =>
  }

  lemma StartedOneSlot(cfg: Config, p: Pool)
    requires Started(cfg, p)
    ensures OneSlot(cfg, p)
  {
    StartBounds(cfg, p);
    var now, aborted, run, effects :| p == Start(cfg, now, aborted, run, effects);
    BodyPhase(cfg, LookAt(cfg, now), effects, aborted, run, EMPTY);
  }

  lemma OneSlotAt(cfg: Config, inputs: seq<Input>, pools: seq<Pool>, k: nat)
    requires MaxConcurrency(cfg) == 1 && IsDrain(cfg, inputs, pools) && k <= |inputs|
    ensures OneSlot(cfg, pools[k])
  {
    var next, inv, measure :=
      (a: Pool, input: Input, b: Pool) => Moves(cfg, a, input, b), (p: Pool) => OneSlot(cfg, p), (p: Pool) => Measure(cfg, p);
    StartedOneSlot(cfg, pools[0]);
    forall a, i, b | inv(a) && next(a, i, b) ensures inv(b) && measure(b) < measure(a) {
      StepBounds(cfg, a, i);
      OneSlotStep(cfg, a, i);
    }
    DrivenDescent(pools, inputs, next, inv, measure, k);
    assert inv(pools[k]);
  }

  lemma MoveAt(cfg: Config, inputs: seq<Input>, pools: seq<Pool>, k: nat)
    requires IsDrain(cfg, inputs, pools) && k < |inputs|
    ensures Moves(cfg, pools[k], inputs[k], pools[k + 1])
  {
    var next := (a: Pool, input: Input, b: Pool) => Moves(cfg, a, input, b);
    assert next(pools[k], inputs[k], pools[k + 1]);
  }

  lemma OneSlotSees(cfg: Config, inputs: seq<Input>, pools: seq<Pool>, k: nat)
    requires MaxConcurrency(cfg) == 1 && IsDrain(cfg, inputs, pools) && k < |inputs| && DropsHalt(pools[k], inputs[k])
    ensures pools[|inputs|].hardFailed
  {
    OneSlotAt(cfg, inputs, pools, k);
    MoveAt(cfg, inputs, pools, k);
    OneSlotStep(cfg, pools[k], inputs[k]);
    HardFailedExactly(cfg, inputs, pools, |inputs|);
  }

  /** Without launches there is nothing to look at. */
  lemma NoLaunchesNoInputs(cfg: Config, inputs: seq<Input>, pools: seq<Pool>)
    requires Limit(cfg) <= 0 && IsDrain(cfg, inputs, pools)
    ensures inputs == []
  {
    var next := (a: Pool, input: Input, b: Pool) => Moves(cfg, a, input, b);
    if inputs != [] {
      assert next(pools[0], inputs[0], pools[0 + 1]);
      NothingStarted(cfg, pools[0]);
      assert false;
    }
  }

  lemma NothingStarted(cfg: Config, p: Pool)
    requires Limit(cfg) <= 0 && Started(cfg, p)
    ensures p.phase == Exited(LimitReached) && p.under == 0
  {
  }

  /** Whatever the workflow, a drain that misses a halting result has room for two active tasks and may launch one. */
  lemma MissNeeds(cfg: Config, inputs: seq<Input>, pools: seq<Pool>)
    requires MissesHalt(cfg, inputs, pools)
    ensures MaxConcurrency(cfg) >= 2 && Limit(cfg) >= 1
  {
    var k :| 0 <= k < |inputs| && DropsHalt(pools[k], inputs[k]);
    if MaxConcurrency(cfg) == 1 { OneSlotSees(cfg, inputs, pools, k); }
    if Limit(cfg) <= 0 { NoLaunchesNoInputs(cfg, inputs, pools); }
  }

  // ---------------------------------------------------------------- going on after a missed halt

  /** A turn drops a halting result, reports no hard failure, and launches more tasks. */
  ghost predicate LaunchesPast(cfg: Config, inputs: seq<Input>, pools: seq<Pool>, k: nat) {
    && IsDrain(cfg, inputs, pools) && k < |inputs|
    && DropsHalt(pools[k], inputs[k])
    && !pools[k + 1].hardFailed
    && pools[k + 1].executed > pools[k].executed
  }

  /** Every active task has been launched, and a manual tick launches one batch only. */
  ghost predicate Counted(cfg: Config, p: Pool) {
    && Bounded(cfg, p) && Size(p) <= p.executed
    && (p.executed > 0 && cfg.manualTick ==> p.stop)
  }

  lemma {:induction false} FillCounts(cfg: Config, look: Look, effects: Effects, aborted: bool, run: Run, p: Pool)
    requires Size(p) <= p.executed && (p.executed > 0 && cfg.manualTick ==> p.stop)
    ensures var t := Fill(cfg, look, effects, aborted, run, p).1;
            Size(t) <= t.executed && (t.executed > 0 && cfg.manualTick ==> t.stop)
    ensures var t := Fill(cfg, look, effects, aborted, run, p).1;
            t.executed > p.executed ==> p.executed < Limit(cfg) && !p.stop
    decreases Limit(cfg) - p.executed
  {
    if p.stop || aborted || Size(p) >= MaxConcurrency(cfg) || p.executed >= Limit(cfg) || look(run).None? {
    } else {
      var found := look(run).value;
      var next := LaunchAll(effects, found.run, p, FirstOf(found.candidates, MaxConcurrency(cfg) - Size(p)));
      if found.candidates != [] && !cfg.manualTick {
        FillCounts(cfg, look, effects, aborted, next.0, next.1);
      }
    }
  }

  lemma BodyCounts(cfg: Config, look: Look, effects: Effects, aborted: bool, run: Run, p: Pool)
    requires Size(p) <= p.executed && (p.executed > 0 && cfg.manualTick ==> p.stop)
    ensures var t := Body(cfg, look, effects, aborted, run, p).1;
            && Size(t) <= t.executed && (t.executed > 0 && cfg.manualTick ==> t.stop)
            && (t.executed > p.executed ==> p.executed < Limit(cfg) && !p.stop)
  {
    FillCounts(cfg, look, effects, aborted, run, if aborted then p.(stop := true) else p);
  }

  lemma StepCounts(cfg: Config, p: Pool, input: Input)
    requires Counted(cfg, p) && Allowed(p, input)
    ensures Counted(cfg, Step(cfg, p, input))
    ensures Step(cfg, p, input).executed > p.executed ==> input.Resume? && p.executed < Limit(cfg) && !p.stop
  {
    StepBounds(cfg, p, input);
    match input
    case Resume(seen, gone, now, aborted, run, effects) =>
      assert p.done == gone + (p.done - gone);
      BodyCounts(cfg, LookAt(cfg, now), effects, aborted, run, Collect(p, seen, gone, aborted));
    case _ =>
  }

  lemma StartedCounts(cfg: Config, p: Pool)
    requires Started(cfg, p)
    ensures Counted(cfg, p)
  {
    StartBounds(cfg, p);
    var now, aborted, run, effects :| p == Start(cfg, now, aborted, run, effects);
    BodyCounts(cfg, LookAt(cfg, now), effects, aborted, run, EMPTY);
  }

  lemma CountedAt(cfg: Config, inputs: seq<Input>, pools: seq<Pool>, k: nat)
    requires IsDrain(cfg, inputs, pools) && k <= |inputs|
    ensures Counted(cfg, pools[k])
  {
    var next, inv, measure :=
      (a: Pool, input: Input, b: Pool) => Moves(cfg, a, input, b), (p: Pool) => Counted(cfg, p), (p: Pool) => Measure(cfg, p);
    StartedCounts(cfg, pools[0]);
    forall a, i, b | inv(a) && next(a, i, b) ensures inv(b) && measure(b) < measure(a) {
      StepBounds(cfg, a, i);
      StepCounts(cfg, a, i);
    }
    DrivenDescent(pools, inputs, next, inv, measure, k);
    assert inv(pools[k]);
  }

  /** Two different results have settled. */
  lemma TwoSettled(done: multiset<TaskResult>, gone: multiset<TaskResult>, a: TaskResult, b: TaskResult)
    requires a != b && a in gone && b in gone && gone <= done
    ensures |done| >= 2
  {
    assert gone == multiset{a, b} + (gone - multiset{a, b});
    assert done == gone + (done - gone);
  }

  /** Whatever the workflow, launching in the turn that drops one takes two slots, three launches and no manual tick. */
  lemma LaunchesPastNeeds(cfg: Config, inputs: seq<Input>, pools: seq<Pool>, k: nat)
    requires LaunchesPast(cfg, inputs, pools, k)
    ensures MaxConcurrency(cfg) >= 2 && Limit(cfg) >= 3 && !cfg.manualTick
  {
    CountedAt(cfg, inputs, pools, k);
    MoveAt(cfg, inputs, pools, k);
    StepCounts(cfg, pools[k], inputs[k]);
    StepFlag(cfg, pools[k], inputs[k]);
    TwoSettled(pools[k].done, inputs[k].gone, inputs[k].seen, TaskFailed(true));
  }
}
