/** The scheduler's loops over its own variables, step by step as they run between two awaits. */
module DrainLoop {
  import opened Common
  import opened Digraph
  import opened Workflow
  import opened WorkflowGraph
  import opened StateMachine
  import opened RunModel
  import opened Readiness
  import opened Scheduling
  import opened AnyDrain

  class SchedulerLoop {
    const cfg: Config
    var run: Run
    var under: nat
    var done: multiset<TaskResult>
    var executed: int
    var hardFailed: bool
    var stop: bool
    var phase: Phase

    function Now(): Pool
      reads this
    {
      Pool(under, done, executed, hardFailed, stop, phase)
    }

    constructor (cfg: Config, run: Run)
      ensures this.cfg == cfg && this.run == run && Now() == EMPTY
    {
      this.cfg, this.run := cfg, run;
      under, done, executed, hardFailed, stop, phase := 0, multiset{}, 0, false, false, Racing;
    }

    /** Items and group items alike: `effects` is what the executors do before their first await. */
    method LaunchItem(effects: Effects, c: Candidate)
      modifies this`run, this`under, this`done, this`executed
      ensures run == effects(old(executed), old(run), c).0
      ensures Now() == Launch(old(Now()), effects(old(executed), old(run), c).1)
    {
      var started := effects(executed, run, c);
      run := started.0;
      match started.1 {
        case None => under := under + 1;
        case Some(result) => done := done + multiset{result};
      }
      executed := executed + 1;
    }

    method LaunchBatch(effects: Effects, batch: seq<Candidate>)
      modifies this`run, this`under, this`done, this`executed
      ensures (run, Now()) == LaunchAll(effects, old(run), old(Now()), batch)
      ensures under + |done| == old(under + |done|) + |batch| && executed == old(executed) + |batch|
    {
      ghost var whole := LaunchAll(effects, run, Now(), batch);
      assert batch[0..] == batch;
      for k := 0 to |batch|
        invariant unchanged(`hardFailed, `stop, `phase)
        invariant LaunchAll(effects, run, Now(), batch[k..]) == whole
      {
        assert batch[k..][1..] == batch[k + 1..];
        LaunchUnfolds(effects, run, Now(), batch[k..]);
        LaunchItem(effects, batch[k]);
      }
      assert batch[|batch|..] == [];
    }

    /** One look: both passes, and the candidates that fit into the free slots. */
    method Look(now: int, free: nat) returns (batch: Option<seq<Candidate>>, after: Run, ghost found: Option<Found>)
      requires free >= 1
      ensures found == LookAt(cfg, now)(run)
      ensures batch.None? <==> found.None?
      ensures batch.Some? ==> after == found.value.run && batch.value == FirstOf(found.value.candidates, free)
    {
      after, found := run, LookAt(cfg, now)(run);
      var dependencies := new DependencyState(cfg.g, cfg.itemKeys, run);
      var raised := dependencies.MarkReadyItems(now);
      if raised { return None, after, found; }
      raised := dependencies.MarkReadyGroups();
      if raised { return None, after, found; }
      var picked := dependencies.PickNextRunnableBatch(free);
      return Some(picked), dependencies.run, found;
    }

    predicate MayLaunch()
      reads this
    {
      !stop && under + |done| < MaxConcurrency(cfg) && executed < Limit(cfg)
    }

    /** The rest of a turn of the inner loop; `more` unless it breaks out of it. */
    method LaunchFound(effects: Effects, batch: Option<seq<Candidate>>, after: Run, ghost found: Option<Found>) returns (more: bool)
      requires MayLaunch()
      requires batch.None? <==> found.None?
      requires batch.Some? ==>
                 && after == found.value.run
                 && batch.value == FirstOf(found.value.candidates, MaxConcurrency(cfg) - Size(Now()))
      modifies this
      ensures FilledOnce(cfg, effects, found, old(run), old(Now()), run, Now(), more)
    {
      if batch.None? {
        phase := Crashed;
        return false;
      }
      run := after;
      if batch.value == [] { return false; }
      LaunchBatch(effects, batch.value);
      if cfg.manualTick {
        stop := true;
        return false;
      }
      return true;
    }

    method FillTurn(effects: Effects, now: int) returns (more: bool)
      requires MayLaunch()
      modifies this
      ensures Fill(cfg, LookAt(cfg, now), effects, false, old(run), old(Now()))
           == if more then Fill(cfg, LookAt(cfg, now), effects, false, run, Now()) else (run, Now())
      ensures more ==> executed > old(executed)
    {
      var batch, after, found := Look(now, MaxConcurrency(cfg) - under - |done|);
      more := LaunchFound(effects, batch, after, found);
      FillUnfolds(cfg, LookAt(cfg, now), effects, old(run), old(Now()), run, Now(), more);
    }

    method FillSlots(effects: Effects, now: int, aborted: bool)
      modifies this
      ensures (run, Now()) == Fill(cfg, LookAt(cfg, now), effects, aborted, old(run), old(Now()))
    {
      if aborted { return; }
      while MayLaunch()
        invariant Fill(cfg, LookAt(cfg, now), effects, false, run, Now())
               == Fill(cfg, LookAt(cfg, now), effects, false, old(run), old(Now()))
        decreases Limit(cfg) - executed
      {
        var more := FillTurn(effects, now);
        if !more { return; }
      }
    }

    /** From the top of the loop to the next await, or to the end, where the nodes are brought up to date. */
    method GoRound(effects: Effects, now: int, aborted: bool)
      modifies this
      ensures Now() == Body(cfg, LookAt(cfg, now), effects, aborted, old(run), old(Now())).1
      ensures phase.Exited? && old(phase.Racing?) ==> run.nodes == SyncNodes(run.nodes, run.items)
    {
      hide LookAt, Fill, SyncNodes;
      if phase.Racing? { FillPhase(cfg, LookAt(cfg, now), effects, aborted, run, if aborted then Now().(stop := true) else Now()); }
      if aborted { stop := true; }
      if executed >= Limit(cfg) {
        Leave(LimitReached);
        return;
      }
      FillSlots(effects, now, aborted);
      if phase.Crashed? { return; }
      if under + |done| == 0 { Leave(NothingLeft); }
    }

    method Leave(why: ExitReason)
      modifies this`run, this`phase
      ensures Now() == old(Now()).(phase := Exited(why))
      ensures run == old(run).(nodes := run.nodes) && run.nodes == SyncNodes(run.nodes, run.items)
    {
      SyncTwice(run.nodes, run.items);
      run := run.(nodes := SyncNodes(run.nodes, run.items));
      phase := Exited(why);
    }

    /**
     * The race is over, and `current` is the run by then: `seen` is looked at, and all of `gone` have left the
     * active set.  After a halting result or an abort nothing more is launched.
     */
    method AfterRace(seen: TaskResult, gone: multiset<TaskResult>, now: int, aborted: bool, current: Run, effects: Effects)
      requires phase.Racing? && seen in gone && gone <= done
      modifies this
      ensures Now() == Step(cfg, old(Now()), Resume(seen, gone, now, aborted, current, effects))
      ensures hardFailed <==> old(hardFailed) || seen == TaskFailed(true)
      ensures seen == TaskFailed(true) || aborted || old(stop) ==> executed == old(executed)
    {
      hide LookAt, Body;
      StepFlag(cfg, Now(), Resume(seen, gone, now, aborted, current, effects));
      BodyStops(cfg, LookAt(cfg, now), effects, aborted, current, Collect(Now(), seen, gone, aborted));
      run := current;
      done := done - gone;
      if aborted { stop := true; }
      if seen.TaskFailed? && seen.halts {
        hardFailed := true;
        stop := true;
      }
      if cfg.manualTick && stop {
        phase := WaitingForAll;
        return;
      }
      GoRound(effects, now, aborted);
    }
  }

  lemma LaunchUnfolds(effects: Effects, run: Run, p: Pool, batch: seq<Candidate>)
    requires batch != []
    ensures var started := effects(p.executed, run, batch[0]);
            LaunchAll(effects, run, p, batch) == LaunchAll(effects, started.0, Launch(p, started.1), batch[1..])
  {
  }

  lemma BodyStops(cfg: Config, look: Scheduling.Look, effects: Effects, aborted: bool, run: Run, p: Pool)
    ensures p.stop || aborted ==> Body(cfg, look, effects, aborted, run, p).1.executed == p.executed
  {
  }

  /** What one turn of the inner loop makes of run and pool. */
  ghost predicate FilledOnce(cfg: Config, effects: Effects, found: Option<Found>, run: Run, p: Pool, after: Run, q: Pool, more: bool)
    requires Size(p) < MaxConcurrency(cfg)
  {
    match found
    case None => !more && after == run && q == p.(phase := Crashed)
    case Some(f) =>
      var next := LaunchAll(effects, f.run, p, FirstOf(f.candidates, MaxConcurrency(cfg) - Size(p)));
      if f.candidates == [] then !more && after == f.run && q == p
      else if cfg.manualTick then !more && after == next.0 && q == next.1.(stop := true)
      else more && (after, q) == next
  }

  lemma FillUnfolds(cfg: Config, look: Scheduling.Look, effects: Effects, run: Run, p: Pool, after: Run, q: Pool, more: bool)
    requires !p.stop && Size(p) < MaxConcurrency(cfg) && p.executed < Limit(cfg)
    requires FilledOnce(cfg, effects, look(run), run, p, after, q, more)
    ensures Fill(cfg, look, effects, false, run, p) == if more then Fill(cfg, look, effects, false, after, q) else (after, q)
    ensures more ==> q.executed > p.executed
  {
  }
}
