/**
 * The drain of any workflow: what a launched or running task does to the run is arbitrary, and only the
 * loop itself is fixed.  How many tasks it has, how many it launches, when it ends, and which results it sees.
 */
module AnyDrain {
  import opened Common
  import opened Workflow
  import opened WorkflowGraph
  import opened RunModel
  import opened Readiness
  import opened Runs
  import opened Scheduling

  /**
   * What the synchronous start of a candidate does: the run it leaves, and the result if it has settled
   * already.  The first argument numbers the launches of a drain.
   */
  type Effects = (int, Run, Candidate) -> (Run, Option<TaskResult>)

  /** The active set of a drain: tasks under way, and results of settled tasks that are still in it. */
  datatype Pool = Pool(
    under: nat,
    done: multiset<TaskResult>,
    executed: int,
    hardFailed: bool,
    stop: bool,
    phase: Phase)

  function Size(p: Pool): nat { p.under + |p.done| }

  function Launch(p: Pool, result: Option<TaskResult>): (r: Pool)
    ensures r == p.(under := r.under, done := r.done, executed := p.executed + 1)
    ensures Size(r) == Size(p) + 1
  {
    match result
    case None => p.(under := p.under + 1, executed := p.executed + 1)
    case Some(value) => p.(done := p.done + multiset{value}, executed := p.executed + 1)
  }

  function LaunchAll(effects: Effects, run: Run, p: Pool, batch: seq<Candidate>): (r: (Run, Pool))
    ensures r.1 == p.(under := r.1.under, done := r.1.done, executed := p.executed + |batch|)
    ensures Size(r.1) == Size(p) + |batch| && r.1.under <= p.under + |batch|
    decreases |batch|
  {
    if batch == [] then (run, p)
    else
      var started := effects(p.executed, run, batch[0]);
      LaunchAll(effects, started.0, Launch(p, started.1), batch[1..])
  }

  /** The inner loop: passes and launches until nothing is ready, no slot is free or the drain is to stop. */
  function Fill(cfg: Config, look: Look, effects: Effects, aborted: bool, run: Run, p: Pool): (r: (Run, Pool))
    decreases Limit(cfg) - p.executed
  {
    if p.stop || aborted || Size(p) >= MaxConcurrency(cfg) || p.executed >= Limit(cfg) then (run, p)
    else
      match look(run)
      case None => (run, p.(phase := Crashed))
      case Some(found) =>
        if found.candidates == [] then (found.run, p)
        else
          var next := LaunchAll(effects, found.run, p, FirstOf(found.candidates, MaxConcurrency(cfg) - Size(p)));
          if cfg.manualTick then (next.0, next.1.(stop := true))
          else Fill(cfg, look, effects, aborted, next.0, next.1)
  }

  /** From the top of the outer loop to the next await, or to the end of the drain. */
  function Body(cfg: Config, look: Look, effects: Effects, aborted: bool, run: Run, p: Pool): (r: (Run, Pool)) {
    var p1 := if aborted then p.(stop := true) else p;
    if p1.executed >= Limit(cfg) then (run, p1.(phase := Exited(LimitReached)))
    else
      var next := Fill(cfg, look, effects, aborted, run, p1);
      if next.1.phase.Crashed? then next
      else if Size(next.1) == 0 then (next.0, next.1.(phase := Exited(NothingLeft)))
      else next
  }

  const EMPTY := Pool(0, multiset{}, 0, false, false, Racing)

  function Start(cfg: Config, now: int, aborted: bool, run: Run, effects: Effects): Pool {
    Body(cfg, LookAt(cfg, now), effects, aborted, run, EMPTY).1
  }

  /**
   * `Settle` is a task coming to its end, `Raise` a task whose promise is rejected.  `Resume` is the loop
   * going on after the race, in the run as it stands by then: `seen` is the result it looks at, and
   * `gone` are the results of all tasks that have left the active set.  `AllDone` ends a manual tick.
   */
  datatype Input =
    | Settle(result: TaskResult)
    | Raise
    | Resume(seen: TaskResult, gone: multiset<TaskResult>, now: int, aborted: bool, run: Run, effects: Effects)
    | AllDone

  ghost predicate Allowed(p: Pool, input: Input) {
    match input
    case Settle(_) => !p.phase.Crashed? && p.under > 0
    case Raise => !p.phase.Crashed? && p.under > 0
    case Resume(seen, gone, _, _, _, _) => p.phase.Racing? && seen in gone && gone <= p.done
    case AllDone => p.phase.WaitingForAll? && p.under == 0
  }

  function Collect(p: Pool, seen: TaskResult, gone: multiset<TaskResult>, aborted: bool): Pool {
    var halted := seen == TaskFailed(true);
    p.(done := p.done - gone, hardFailed := p.hardFailed || halted, stop := p.stop || aborted || halted)
  }

  ghost function Step(cfg: Config, p: Pool, input: Input): Pool
    requires Allowed(p, input)
  {
    match input
    case Settle(result) => p.(under := p.under - 1, done := p.done + multiset{result})
    case Raise => p.(phase := Crashed)
    case Resume(seen, gone, now, aborted, run, effects) =>
      var p1 := Collect(p, seen, gone, aborted);
      if cfg.manualTick && p1.stop then p1.(phase := WaitingForAll)
      else Body(cfg, LookAt(cfg, now), effects, aborted, run, p1).1
    case AllDone => p.(done := multiset{}, phase := Exited(TickDone))
  }

  ghost predicate Started(cfg: Config, p: Pool) {
    exists now, aborted, run, effects :: p == Start(cfg, now, aborted, run, effects)
  }

  /** A drain: the pools after its synchronous start and after every input. */
  ghost predicate IsDrain(cfg: Config, inputs: seq<Input>, pools: seq<Pool>) {
    && Driven(pools, inputs, (a: Pool, input: Input, b: Pool) => Moves(cfg, a, input, b))
    && Started(cfg, pools[0])
  }

  ghost predicate Moves(cfg: Config, a: Pool, input: Input, b: Pool) {
    Allowed(a, input) && b == Step(cfg, a, input)
  }

  // ---------------------------------------------------------------- phases

  lemma {:induction false} FillPhase(cfg: Config, look: Look, effects: Effects, aborted: bool, run: Run, p: Pool)
    requires p.phase.Racing?
    ensures Fill(cfg, look, effects, aborted, run, p).1.phase in {Racing, Crashed}
    decreases Limit(cfg) - p.executed
  {
    if p.stop || aborted || Size(p) >= MaxConcurrency(cfg) || p.executed >= Limit(cfg) || look(run).None? {
    } else {
      var found := look(run).value;
      var next := LaunchAll(effects, found.run, p, FirstOf(found.candidates, MaxConcurrency(cfg) - Size(p)));
      if found.candidates != [] && !cfg.manualTick {
        FillPhase(cfg, look, effects, aborted, next.0, next.1);
      }
    }
  }

  lemma BodyPhase(cfg: Config, look: Look, effects: Effects, aborted: bool, run: Run, p: Pool)
    requires p.phase.Racing?
    ensures !Body(cfg, look, effects, aborted, run, p).1.phase.WaitingForAll?
  {
    FillPhase(cfg, look, effects, aborted, run, if aborted then p.(stop := true) else p);
  }

  // ---------------------------------------------------------------- bounds

  /** More launches than this the limit and the slots do not allow. */
  function Cap(cfg: Config): nat { (if Limit(cfg) < 0 then 0 else Limit(cfg)) + MaxConcurrency(cfg) }

  /** At most `maxConcurrency` active tasks, at most `maxGlobalIterations + maxConcurrency - 1` launches. */
  ghost predicate Within(cfg: Config, p: Pool) {
    Size(p) <= MaxConcurrency(cfg) && 0 <= p.executed <= Cap(cfg) - 1
  }

  ghost predicate Bounded(cfg: Config, p: Pool) {
    Within(cfg, p) && (p.phase.Racing? ==> Size(p) > 0)
  }

  /** Work still possible: launches left, and tasks to settle and collect. */
  function Measure(cfg: Config, p: Pool): int {
    match p.phase
    case Crashed => 0
    case Exited(_) => 1 + p.under
    case _ => 2 + 3 * (Cap(cfg) - p.executed) + 2 * p.under + |p.done|
  }

  lemma {:induction false} FillBounds(cfg: Config, look: Look, effects: Effects, aborted: bool, run: Run, p: Pool)
    requires Within(cfg, p) && p.phase.Racing?
    ensures var t := Fill(cfg, look, effects, aborted, run, p).1;
            Within(cfg, t) && t.phase in {Racing, Crashed} && Measure(cfg, t) <= Measure(cfg, p)
    decreases Limit(cfg) - p.executed
  {
    hide LaunchAll;
    if p.stop || aborted || Size(p) >= MaxConcurrency(cfg) || p.executed >= Limit(cfg) || look(run).None? {
    } else {
      var found := look(run).value;
      var next := LaunchAll(effects, found.run, p, FirstOf(found.candidates, MaxConcurrency(cfg) - Size(p)));
      if found.candidates != [] && !cfg.manualTick {
        FillBounds(cfg, look, effects, aborted, next.0, next.1);
      }
    }
  }

  lemma BodyBounds(cfg: Config, look: Look, effects: Effects, aborted: bool, run: Run, p: Pool)
    requires Within(cfg, p) && p.phase.Racing?
    ensures var t := Body(cfg, look, effects, aborted, run, p).1;
            Bounded(cfg, t) && Measure(cfg, t) <= Measure(cfg, p)
  {
    var p1 := if aborted then p.(stop := true) else p;
    if p1.executed < Limit(cfg) { FillBounds(cfg, look, effects, aborted, run, p1); }
  }

  lemma CollectBounds(cfg: Config, p: Pool, seen: TaskResult, gone: multiset<TaskResult>, aborted: bool)
    requires Bounded(cfg, p) && p.phase.Racing? && seen in gone && gone <= p.done
    ensures var t := Collect(p, seen, gone, aborted);
            Within(cfg, t) && t.phase.Racing? && Measure(cfg, t) < Measure(cfg, p)
  {
    assert p.done == gone + (p.done - gone);
    assert |gone| > 0 by { assert gone == multiset{seen} + (gone - multiset{seen}); }
  }

  lemma StepBounds(cfg: Config, p: Pool, input: Input)
    requires Bounded(cfg, p) && Allowed(p, input)
    ensures Bounded(cfg, Step(cfg, p, input)) && Measure(cfg, Step(cfg, p, input)) < Measure(cfg, p)
  {
    match input
    case Settle(result) =>
    case Raise =>
    case Resume(seen, gone, now, aborted, run, effects) =>
      CollectBounds(cfg, p, seen, gone, aborted);
      var p1 := Collect(p, seen, gone, aborted);
      if !(cfg.manualTick && p1.stop) { BodyBounds(cfg, LookAt(cfg, now), effects, aborted, run, p1); }
    case AllDone =>
  }

  lemma StartBounds(cfg: Config, p: Pool)
    requires Started(cfg, p)
    ensures Bounded(cfg, p) && Measure(cfg, p) <= 3 * Cap(cfg) + 2 && !p.hardFailed
  {
    var now, aborted, run, effects :| p == Start(cfg, now, aborted, run, effects);
    BodyBounds(cfg, LookAt(cfg, now), effects, aborted, run, EMPTY);
    BodyKeepsFlag(cfg, LookAt(cfg, now), effects, aborted, run, EMPTY);
  }

  lemma BoundedAt(cfg: Config, inputs: seq<Input>, pools: seq<Pool>, k: nat)
    requires IsDrain(cfg, inputs, pools) && k <= |inputs|
    ensures Bounded(cfg, pools[k]) && Measure(cfg, pools[k]) + k <= 3 * Cap(cfg) + 2
  {
    var next, inv, measure :=
      (a: Pool, input: Input, b: Pool) => Moves(cfg, a, input, b), (p: Pool) => Bounded(cfg, p), (p: Pool) => Measure(cfg, p);
    StartBounds(cfg, pools[0]);
    forall a, i, b | inv(a) && next(a, i, b) ensures inv(b) && measure(b) < measure(a) { StepBounds(cfg, a, i); }
    DrivenDescent(pools, inputs, next, inv, measure, k);
    assert inv(pools[k]) && measure(pools[k]) + k <= measure(pools[0]);
  }

  /**
   * In every drain of any workflow over any run, whatever its tasks do: at most `maxConcurrency` tasks are
   * active, at most `maxGlobalIterations + maxConcurrency - 1` are ever launched, and the loop ends after a
   * bounded number of settled tasks and turns.
   */
  lemma DrainIsBounded(cfg: Config, inputs: seq<Input>, pools: seq<Pool>)
    requires IsDrain(cfg, inputs, pools)
    ensures forall k :: 0 <= k < |pools| ==> Within(cfg, pools[k])
    ensures |inputs| <= 3 * Cap(cfg) + 2
  {
    forall k | 0 <= k < |pools| ensures Within(cfg, pools[k]) { BoundedAt(cfg, inputs, pools, k); }
    BoundedAt(cfg, inputs, pools, |inputs|);
    MeasureNonNegative(cfg, pools[|inputs|]);
  }

  lemma MeasureNonNegative(cfg: Config, p: Pool)
    requires Bounded(cfg, p)
    ensures Measure(cfg, p) >= 0
  {
  }

  /** A drain that has not ended can always go on, as long as its tasks settle. */
  lemma NeverStalls(cfg: Config, inputs: seq<Input>, pools: seq<Pool>, k: nat)
    requires IsDrain(cfg, inputs, pools) && k <= |inputs| && pools[k].phase in {Racing, WaitingForAll}
    ensures exists input :: Allowed(pools[k], input)
  {
    BoundedAt(cfg, inputs, pools, k);
    CanGoOn(pools[k]);
  }

  lemma CanGoOn(p: Pool)
    requires (p.phase.Racing? && Size(p) > 0) || p.phase.WaitingForAll?
    ensures exists input :: Allowed(p, input)
  {
    if p.under > 0 {
      assert Allowed(p, Settle(TaskOk));
    } else if p.phase.Racing? {
      var r :| r in p.done;
      var input := Resume(r, multiset{r}, 0, false, Run([], [], [], []), (n: int, run: Run, c: Candidate) => (run, None));
      assert Allowed(p, input);
    } else {
      assert Allowed(p, AllDone);
    }
  }

  // ---------------------------------------------------------------- which results the loop sees

  predicate LooksAtHalt(input: Input) { input.Resume? && input.seen == TaskFailed(true) }

  lemma {:induction false} FillKeepsFlag(cfg: Config, look: Look, effects: Effects, aborted: bool, run: Run, p: Pool)
    ensures Fill(cfg, look, effects, aborted, run, p).1.hardFailed == p.hardFailed
    decreases Limit(cfg) - p.executed
  {
    if p.stop || aborted || Size(p) >= MaxConcurrency(cfg) || p.executed >= Limit(cfg) || look(run).None? {
    } else {
      var found := look(run).value;
      var next := LaunchAll(effects, found.run, p, FirstOf(found.candidates, MaxConcurrency(cfg) - Size(p)));
      if found.candidates != [] && !cfg.manualTick {
        FillKeepsFlag(cfg, look, effects, aborted, next.0, next.1);
      }
    }
  }

  lemma BodyKeepsFlag(cfg: Config, look: Look, effects: Effects, aborted: bool, run: Run, p: Pool)
    ensures Body(cfg, look, effects, aborted, run, p).1.hardFailed == p.hardFailed
  {
    FillKeepsFlag(cfg, look, effects, aborted, run, if aborted then p.(stop := true) else p);
  }

  lemma StepFlag(cfg: Config, p: Pool, input: Input)
    requires Allowed(p, input)
    ensures Step(cfg, p, input).hardFailed <==> p.hardFailed || LooksAtHalt(input)
  {
    match input
    case Settle(result) =>
    case Raise =>
    case Resume(seen, gone, now, aborted, run, effects) =>
      BodyKeepsFlag(cfg, LookAt(cfg, now), effects, aborted, run, Collect(p, seen, gone, aborted));
    case AllDone =>
  }

  /** A drain reports a hard failure exactly if some turn of its loop has looked at a halting result. */
  lemma HardFailedExactly(cfg: Config, inputs: seq<Input>, pools: seq<Pool>, n: nat)
    requires IsDrain(cfg, inputs, pools) && n <= |inputs|
    ensures pools[n].hardFailed <==> exists k :: 0 <= k < n && LooksAtHalt(inputs[k])
  {
    var next, flag, sets :=
      (a: Pool, input: Input, b: Pool) => Moves(cfg, a, input, b), (p: Pool) => p.hardFailed, (input: Input) => LooksAtHalt(input);
    StartBounds(cfg, pools[0]);
    forall a, i, b | next(a, i, b) ensures flag(b) <==> flag(a) || sets(i) { StepFlag(cfg, a, i); }
    DrivenFlag(pools, inputs, next, flag, sets, n);
    assert flag(pools[n]) <==> exists k :: 0 <= k < n && sets(inputs[k]);
  }
}
