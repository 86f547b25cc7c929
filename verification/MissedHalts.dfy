/**
 * Under which settings a drain misses a halting result, or even goes on launching after one: drains of seeded runs
 * of accepted plain workflows, with tasks by name.
 */
module MissedHalts {
  import opened Common
  import opened Digraph
  import opened Workflow
  import opened WorkflowGraph
  import opened Acyclicity
  import opened Validate
  import opened StraightWorkflows
  import opened StateMachine
  import opened RunModel
  import opened Retry
  import opened Readiness
  import opened Fragment
  import opened Runs
  import opened Scheduling
  import opened Drain
  import opened DrainTasks
  import opened DrainRefinement
  import opened PlainRuns
  import opened DrainOutcome
  import opened StuckDrains
  import opened PlainWorkflows
  import opened SeveralKeys
  import Any = AnyDrain
  import Halting = HaltingResults

  predicate Halted(s: State, i: nat) { i in s.settled && s.settled[i] == TaskFailed(true) }

  /** A halting result leaves the active set, whether or not the loop looks at it. */
  ghost predicate DropsHalt(s: State, input: Input) {
    match input
    case Resume(_, gone, _, _) => exists i :: i in gone && Halted(s, i)
    case AllDone => exists i :: Halted(s, i)
    case _ => false
  }

  ghost predicate DropStep(cfg: Config, a: State, input: Input, b: State) {
    Allowed(cfg, a, input) && b == Step(cfg, a, input) && DropsHalt(a, input)
  }

  ghost predicate Drops(cfg: Config, a: State, b: State) {
    exists input :: DropStep(cfg, a, input, b)
  }

  ghost predicate DropsAt(cfg: Config, states: seq<State>, k: nat) {
    k + 1 < |states| && Drops(cfg, states[k], states[k + 1])
  }

  /** A halting result has been dropped, and the drain does not report a hard failure. */
  ghost predicate MissesHalt(cfg: Config, states: seq<State>) {
    states != [] && !states[|states| - 1].hardFailed && exists k: nat :: DropsAt(cfg, states, k)
  }

  /** A step that drops a halting result, reports no hard failure, and launches more tasks. */
  ghost predicate LaunchesPast(cfg: Config, states: seq<State>, k: nat) {
    DropsAt(cfg, states, k) && !states[k + 1].hardFailed && states[k + 1].executed > states[k].executed
  }

  /** A drain, under given settings, of the seeded run of an accepted plain workflow. */
  ghost predicate SeededDrain(scheduler: Scheduler, manualTick: bool, w: Definition, keys: seq<string>, run: Run,
                              cfg: Config, states: seq<State>) {
    && Accepts(w) && PlainWorkflow(w) && Unseeded(w, run) && keys != []
    && w.scheduler == scheduler
    && cfg.g == Build(w) && cfg.scheduler == scheduler && cfg.manualTick == manualTick
    && IsDrain(cfg, EnsureItems(cfg.g, keys, run), states)
  }

  ghost predicate CanMiss(scheduler: Scheduler, manualTick: bool) {
    exists w: Definition, keys: seq<string>, run: Run, cfg: Config, states: seq<State> ::
      SeededDrain(scheduler, manualTick, w, keys, run, cfg, states) && MissesHalt(cfg, states)
  }

  /** The drain even comes to its end that way. */
  ghost predicate CanEndMissing(scheduler: Scheduler, manualTick: bool) {
    exists w: Definition, keys: seq<string>, run: Run, cfg: Config, states: seq<State> ::
      SeededDrain(scheduler, manualTick, w, keys, run, cfg, states) && MissesHalt(cfg, states)
      && states[|states| - 1].phase.Exited?
  }

  ghost predicate CanLaunchPast(scheduler: Scheduler, manualTick: bool) {
    exists w: Definition, keys: seq<string>, run: Run, cfg: Config, states: seq<State>, k: nat ::
      SeededDrain(scheduler, manualTick, w, keys, run, cfg, states) && LaunchesPast(cfg, states, k)
  }

  // ---------------------------------------------------------------- flags and counters of one step

  lemma {:induction false} FillKeeps(cfg: Config, look: Look, aborted: bool, s: State)
    ensures var t := Fill(cfg, look, aborted, s);
            && t.hardFailed == s.hardFailed && t.executed >= s.executed
            && (t.executed > s.executed ==> s.executed < Limit(cfg) && !s.stop)
    decreases Limit(cfg) - s.executed
  {
    hide LaunchAll, FirstOf;
    if s.stop || aborted || Active(s) >= MaxConcurrency(cfg) || s.executed >= Limit(cfg) || look(s.run).None? {
    } else if look(s.run).value.candidates != [] && !cfg.manualTick {
      RoundCounts(cfg, s, look(s.run).value);
      FillKeeps(cfg, look, aborted, Round(cfg, s, look(s.run).value));
    }
  }

  lemma BodyKeeps(cfg: Config, look: Look, aborted: bool, s: State)
    ensures var t := Body(cfg, look, aborted, s);
            && t.hardFailed == s.hardFailed && t.executed >= s.executed
            && (t.executed > s.executed ==> s.executed < Limit(cfg) && !s.stop)
  {
    FillKeeps(cfg, look, aborted, if aborted then s.(stop := true) else s);
    hide Fill, SyncNodes;
  }

  /** A step reports a hard failure if it looks at a halting result, and takes no report back. */
  lemma StepFlag(cfg: Config, s: State, input: Input)
    requires Allowed(cfg, s, input)
    ensures Step(cfg, s, input).hardFailed <==> s.hardFailed || (input.Resume? && Halted(s, input.seen))
  {
    hide MarkNode, Promote, Body, SyncNodes, TransitionStatus;
    if input.Resume? {
      BodyKeeps(cfg, LookAt(cfg, input.now), input.aborted, Collect(s, input.seen, input.gone, input.aborted));
    }
  }

  lemma StepLaunches(cfg: Config, s: State, input: Input)
    requires Allowed(cfg, s, input) && Step(cfg, s, input).executed > s.executed
    ensures input.Resume? && s.executed < Limit(cfg) && !s.stop
  {
    hide MarkNode, Promote, Body, SyncNodes, TransitionStatus;
    if input.Resume? {
      BodyKeeps(cfg, LookAt(cfg, input.now), input.aborted, Collect(s, input.seen, input.gone, input.aborted));
    }
  }

  /** A report of a hard failure stays. */
  lemma {:induction false} FlagStays(cfg: Config, states: seq<State>, k: nat, n: nat)
    requires Linked(states, (a: State, b: State) => Next(cfg, a, b)) && k <= n < |states| && states[k].hardFailed
    ensures states[n].hardFailed
    decreases n
  {
    hide Allowed, Step;
    if n == k {
    } else {
      FlagStays(cfg, states, k, n - 1);
      var next := (a: State, b: State) => Next(cfg, a, b);
      assert next(states[n - 1], states[n - 1 + 1]);
      var input :| Allowed(cfg, states[n - 1], input) && states[n] == Step(cfg, states[n - 1], input);
      StepFlag(cfg, states[n - 1], input);
    }
  }

  // ---------------------------------------------------------------- what missing one takes

  lemma TwoKeys(settled: map<nat, TaskResult>, i: nat, j: nat)
    requires i in settled && j in settled && i != j
    ensures |settled.Keys| >= 2
  {
    assert {i, j} <= settled.Keys;
    SubsetSize({i, j}, settled.Keys);
  }

  /** With one slot there is one task at most, and none is left to wait for once it has been looked at. */
  lemma OneSlotHere(cfg: Config, run: Run, states: seq<State>, k: nat)
    requires Known(run) && IsDrain(cfg, run, states) && MaxConcurrency(cfg) == 1 && k < |states|
    ensures |states[k].settled.Keys| <= 1 && (states[k].phase.WaitingForAll? ==> states[k].settled == map[])
  {
    hide Known, IsDrain, DrainRefinement.Sound, Any.IsDrain;
    var inputs, pools := DrainRefines(cfg, run, states);
    var m :| 0 <= m < |pools| && pools[m] == Abstract(states[k]);
    PoolCount(cfg, inputs, pools);
    Halting.OneSlotAt(cfg, inputs, pools, m);
    SizeIsActive(states[k]);
    assert |states[k].settled.Keys| == 0 ==> states[k].settled == map[];
  }

  lemma PoolCount(cfg: Config, inputs: seq<Any.Input>, pools: seq<Any.Pool>)
    requires Any.IsDrain(cfg, inputs, pools)
    ensures |pools| == |inputs| + 1
  {
  }

  lemma OneSlotLooks(cfg: Config, a: State, input: Input, b: State)
    requires DropStep(cfg, a, input, b)
    requires |a.settled.Keys| <= 1 && (a.phase.WaitingForAll? ==> a.settled == map[])
    ensures b.hardFailed
  {
    StepFlag(cfg, a, input);
    hide Step;
    if input.Resume? {
      var i :| i in input.gone && Halted(a, i);
      if i != input.seen { TwoKeys(a.settled, i, input.seen); }
    }
  }

  lemma OneSlotSees(cfg: Config, run: Run, states: seq<State>)
    requires Known(run) && IsDrain(cfg, run, states) && MaxConcurrency(cfg) == 1
    ensures !MissesHalt(cfg, states)
  {
    hide Known, DropStep, Next, Start, NodesOnly;
    if MissesHalt(cfg, states) {
      var k: nat :| DropsAt(cfg, states, k);
      var input :| DropStep(cfg, states[k], input, states[k + 1]);
      OneSlotHere(cfg, run, states, k);
      OneSlotLooks(cfg, states[k], input, states[k + 1]);
      FlagStays(cfg, states, k + 1, |states| - 1);
      assert false;
    }
  }

  /** Without launches there is nothing to drop. */
  lemma NoLaunchesNoSteps(cfg: Config, run: Run, states: seq<State>)
    requires IsDrain(cfg, run, states) && Limit(cfg) <= 0
    ensures |states| == 1
  {
    hide Next, NodesOnly, SyncNodes;
    var now, aborted :| states[0] == Start(cfg, now, aborted, run);
    assert states[0].phase.Exited? && states[0].executing == {};
    NothingFollows(cfg, states[0]);
    OnlyState(cfg, states);
  }

  lemma MissNeeds(cfg: Config, run: Run, states: seq<State>)
    requires Known(run) && IsDrain(cfg, run, states) && MissesHalt(cfg, states)
    ensures cfg.scheduler.maxConcurrency >= 2 && cfg.scheduler.maxGlobalIterations >= 1
  {
    hide Known, IsDrain, Drops;
    if MaxConcurrency(cfg) == 1 { OneSlotSees(cfg, run, states); }
    if Limit(cfg) <= 0 { NoLaunchesNoSteps(cfg, run, states); }
  }

  /** Every active task has been launched, and a manual tick launches one batch only. */
  lemma CountedHere(cfg: Config, run: Run, states: seq<State>, k: nat)
    requires Known(run) && IsDrain(cfg, run, states) && k < |states|
    ensures var s := states[k];
            && Active(s) <= MaxConcurrency(cfg) && Active(s) <= s.executed
            && (s.executed > 0 && cfg.manualTick ==> s.stop)
  {
    hide Known, IsDrain, DrainRefinement.Sound, Any.IsDrain;
    var inputs, pools := DrainRefines(cfg, run, states);
    var m :| 0 <= m < |pools| && pools[m] == Abstract(states[k]);
    PoolCount(cfg, inputs, pools);
    Halting.CountedAt(cfg, inputs, pools, m);
    SizeIsActive(states[k]);
    hide Abstract, Active;
  }

  lemma DropsTwo(cfg: Config, a: State, input: Input, b: State)
    requires DropStep(cfg, a, input, b) && !b.hardFailed && input.Resume?
    ensures Active(a) >= 2
  {
    StepFlag(cfg, a, input);
    hide Step;
    var i :| i in input.gone && Halted(a, i);
    TwoKeys(a.settled, i, input.seen);
  }

  lemma LaunchesPastNeeds(cfg: Config, run: Run, states: seq<State>, k: nat)
    requires Known(run) && IsDrain(cfg, run, states) && LaunchesPast(cfg, states, k)
    ensures cfg.scheduler.maxConcurrency >= 2 && cfg.scheduler.maxGlobalIterations >= 3 && !cfg.manualTick
  {
    hide Known, IsDrain, Active, Step, DropsHalt;
    var input :| DropStep(cfg, states[k], input, states[k + 1]);
    CountedHere(cfg, run, states, k);
    StepLaunches(cfg, states[k], input);
    DropsTwo(cfg, states[k], input, states[k + 1]);
  }

  // ---------------------------------------------------------------- a drain that misses one

  /** The first node succeeds and the second halts, neither depending on anything; the third needs the first. */
  ghost predicate Trio(cfg: Config, f: Frame) {
    && FrameOf(cfg, f) && |f.ids| == 3
    && f.dag.on[0] && f.dag.on[1] && f.dag.sources == [{}, {}, {0}]
    && VerdictOf(cfg, f.ids[0]) == Succeed && VerdictOf(cfg, f.ids[1]) == Fail(true, true)
  }

  /** The third node has not started. */
  ghost predicate Shows(f: Frame, st: seq<Status>, first: Status, second: Status) {
    && |st| == |f.dag.on| == 3 && st[0] == first && st[1] == second
    && st[2] in (if f.dag.on[2] then {Waiting, Queued} else {Queued, Blocked, Waiting, Skipped})
  }

  /** What a pass makes of the three. */
  lemma TrioPass(cfg: Config, f: Frame, st: seq<Status>, first: Status, second: Status, after: seq<Status>)
    requires Trio(cfg, f) && Fits(f.dag, st) && Shows(f, st, first, second) && PassFrom(f.dag, st, 0) == Some(after)
    requires first in {Running, Success} && second in {Running, Failed}
    ensures Shows(f, after, first, second)
    ensures f.dag.on[2] ==> after[2] == if first == Success then Queued else Waiting
  {
    Turns(f.dag, st, 0, after);
    var mid := Mixed(st, after, 2);
    assert Turn(f.dag, Mixed(st, after, 0), 0) == Some(after[0]);
    assert Turn(f.dag, Mixed(st, after, 1), 1) == Some(after[1]);
    assert Turn(f.dag, mid, 2) == Some(after[2]);
    assert 0 in f.dag.sources[2];
    assert Met(f.dag, mid, 0) <==> first == Success;
  }

  /** At the first look the third node waits, or is skipped when it is disabled. */
  lemma FirstShows(f: Frame, st: seq<Status>)
    requires f.dag.Shaped() && f.dag.sources == [{}, {}, {0}] && f.dag.on[0] && f.dag.on[1] && |st| == 3
    requires forall k :: 0 <= k < 3 ==>
               st[k] == if !f.dag.on[k] then Skipped else if Skippable(f.dag, k) then Waiting else Queued
    ensures Shows(f, st, Queued, Queued) && st[2] != Queued
  {
    assert 0 in f.dag.sources[2];
  }

  lemma FirstCandidates(g: Graph, f: Frame, found: Found, st: seq<Status>)
    requires |f.ids| == 3 && Statuses(found.run.items) == st && Shows(f, st, Queued, Queued) && st[2] != Queued
    requires FreshBatch(g, found.run.items, found.candidates) && Enabled(g, f.ids[0]) && Enabled(g, f.ids[1])
    requires forall k :: 0 <= k < |f.ids| && st[k] == Queued && Enabled(g, f.ids[k]) ==> NodeItem(k) in found.candidates
    ensures |found.candidates| == 2 && forall c :: c in found.candidates <==> c in {NodeItem(0), NodeItem(1)}
  {
    var c := found.candidates;
    hide Enabled;
    forall x | x in c ensures x in {NodeItem(0), NodeItem(1)} { assert st[x.index] == Queued; }
    TwoOnly(c);
  }

  lemma EnabledIds(cfg: Config, f: Frame)
    requires FrameOf(cfg, f)
    ensures |f.ids| == |f.dag.on| && forall k :: 0 <= k < |f.ids| ==> (f.dag.on[k] <==> Enabled(cfg.g, f.ids[k]))
  {
  }

  /** The first look finds the first two nodes and nothing else. */
  lemma FirstLook(cfg: Config, f: Frame, run: Run, found: Found)
    requires Trio(cfg, f) && Good(cfg, f, Initial(run)) && Fresh(f.dag, Statuses(run.items))
    requires LookAt(cfg, 0)(run) == Some(found)
    ensures |found.candidates| == 2 && forall c :: c in found.candidates <==> c in {NodeItem(0), NodeItem(1)}
    ensures Shows(f, Statuses(found.run.items), Queued, Queued) && FreshBatch(cfg.g, found.run.items, found.candidates)
  {
    var st := Statuses(found.run.items);
    EnabledIds(cfg, f);
    hide LookAt, Good, Fresh, PassFrom, FrameOf, Restated, NodesFollow, FreshBatch, Skippable, Shows, DagOf, Enabled;
    FirstStatuses(cfg, f, run, found);
    FirstShows(f, st);
    FirstCandidates(cfg.g, f, found, st);
  }

  lemma TwoOnly(c: seq<Candidate>)
    requires Distinct(c) && forall x :: x in c <==> x in {NodeItem(0), NodeItem(1)}
    ensures |c| == 2
  {
    SetSize(c);
    assert ToSet(c) == {NodeItem(0), NodeItem(1)};
  }

  /** Two tasks are under way, and the loop waits. */
  ghost predicate TwoUnder(cfg: Config, f: Frame, s: State) {
    && Good(cfg, f, s) && Shows(f, Statuses(s.run.items), Running, Running)
    && s.begun == {} && s.ended == map[] && s.settled == map[]
    && s.executed == 2 && !s.hardFailed && s.phase.Racing?
  }

  lemma TwoExecuting(cfg: Config, f: Frame, s: State)
    requires Good(cfg, f, s) && Shows(f, Statuses(s.run.items), Running, Running) && s.settled == map[]
    ensures s.executing == {0, 1} && Active(s) == 2
  {
    hide Inv, Untried, NodeFits, PlainItems, PlainGraph, Known;
    var st := Statuses(s.run.items);
    assert |f.ids| == |ItemNodeIds(s.run.items)| == 3;
    forall i: nat ensures i in s.executing <==> i in {0, 1} {
      if i < 3 { assert st[i] == Running <==> i in s.executing; }
    }
  }

  lemma FirstRoundTakesTwo(cfg: Config, run: Run, found: Found)
    requires |found.candidates| == 2 && MaxConcurrency(cfg) >= 2
    ensures Round(cfg, Initial(run), found) == LaunchAll(cfg, Initial(run).(run := found.run), found.candidates).(executed := 2)
  {
    hide LaunchAll;
    assert FirstOf(found.candidates, MaxConcurrency(cfg)) == found.candidates;
  }

  lemma BothRun(f: Frame, found: Found, st: seq<Status>, after: seq<Status>)
    requires Shows(f, st, Queued, Queued) && |after| == 3
    requires forall c :: c in found.candidates <==> c in {NodeItem(0), NodeItem(1)}
    requires forall i :: 0 <= i < 3 ==> after[i] == if Names(found.candidates, i) then Running else st[i]
    ensures Shows(f, after, Running, Running)
  {
    assert NodeItem(0) in found.candidates && NodeItem(1) in found.candidates && NodeItem(2) !in found.candidates;
  }

  /** The first round launches the two. */
  lemma FirstRoundRunsTwo(cfg: Config, f: Frame, run: Run, found: Found)
    requires Trio(cfg, f) && Good(cfg, f, Initial(run)) && Fresh(f.dag, Statuses(run.items))
    requires LookAt(cfg, 0)(run) == Some(found) && MaxConcurrency(cfg) >= 2
    ensures TwoUnder(cfg, f, Round(cfg, Initial(run), found)) && !Round(cfg, Initial(run), found).stop
  {
    FirstLook(cfg, f, run, found);
    hide LookAt, LaunchAll, Fresh, Good, Shows, FrameOf, Untried, FreshBatch, Names;
    var s := Initial(run).(run := found.run);
    var t := LaunchAll(cfg, s, found.candidates);
    FirstRoundGood(cfg, f, run, found);
    LaunchAllStatuses(cfg, s, found.candidates);
    assert |found.run.items| == 3 by { ThreeItems(f, found.run.items, Queued, Queued); }
    BothRun(f, found, Statuses(found.run.items), Statuses(t.run.items));
    CounterIgnored(cfg, f, t, 2);
    FirstRoundTakesTwo(cfg, run, found);
  }

  lemma ThreeItems(f: Frame, items: seq<ItemRun>, first: Status, second: Status)
    requires Shows(f, Statuses(items), first, second)
    ensures |items| == 3
  {
  }

  /** While the two run, a look finds nothing. */
  lemma LookWhileBothRun(cfg: Config, f: Frame, s: State) returns (found: Found)
    requires Trio(cfg, f) && TwoUnder(cfg, f, s)
    ensures LookAt(cfg, 0)(s.run) == Some(found) && found.candidates == [] && TwoUnder(cfg, f, s.(run := found.run))
  {
    hide LookAt, Looks, PassFrom, Good, FrameOf, Finds, Later;
    LookAtLooks(cfg, f, 0);
    var st;
    found, st := LooksHere(cfg, f, LookAt(cfg, 0), s);
    TrioPass(cfg, f, Statuses(s.run.items), Running, Running, st);
    FoundGood(cfg, f, s, found, st);
    TrioQueued(f, st, Running, Running);
    NothingQueued(cfg, f, s, found, st);
  }

  lemma TrioQueued(f: Frame, st: seq<Status>, first: Status, second: Status)
    requires Shows(f, st, first, second) && first != Queued && second != Queued && (f.dag.on[2] ==> st[2] != Queued)
    ensures |st| == |f.dag.on| && forall k :: 0 <= k < |st| && f.dag.on[k] ==> st[k] != Queued
  {
  }

  lemma NothingQueued(cfg: Config, f: Frame, s: State, found: Found, st: seq<Status>)
    requires FrameOf(cfg, f) && Good(cfg, f, s) && Finds(cfg.g, f.ids, s.run, st, found) && |st| == |f.dag.on|
    requires forall k :: 0 <= k < |st| && f.dag.on[k] ==> st[k] != Queued
    ensures found.candidates == []
  {
    RestatedFacts(s.run.items, found.run.items, st, f.itemKey);
    hide Inv, Underway, Untried, PlainGraph, Known;
    NoCandidates(cfg, f, found, st);
  }

  lemma FillWhileBothRun(cfg: Config, f: Frame, s: State)
    requires Trio(cfg, f) && TwoUnder(cfg, f, s)
    ensures var t := Fill(cfg, LookAt(cfg, 0), false, s); TwoUnder(cfg, f, t) && t.stop == s.stop
  {
    hide LookAt, Trio, TwoUnder;
    var found := LookWhileBothRun(cfg, f, s);
  }

  lemma StartsWithRound(cfg: Config, look: Look, run: Run, found: Found, u: State)
    requires look(run) == Some(found) && found.candidates != [] && Limit(cfg) >= 1
    requires var t := Round(cfg, Initial(run), found);
             u == if cfg.manualTick then t.(stop := true) else Fill(cfg, look, false, t)
    requires u.phase.Racing? && Active(u) > 0
    ensures Body(cfg, look, false, Initial(run)) == u
  {
    assert Active(Initial(run)) == 0;
    hide Round, Active, SyncNodes;
  }

  /** The drain starts with the two under way. */
  lemma TrioStart(cfg: Config, f: Frame, run: Run)
    requires Trio(cfg, f) && Good(cfg, f, Initial(run)) && Fresh(f.dag, Statuses(run.items))
    requires MaxConcurrency(cfg) >= 2 && Limit(cfg) >= 1
    ensures var s := Start(cfg, 0, false, run); TwoUnder(cfg, f, s) && s.stop == cfg.manualTick
  {
    LookAtLooks(cfg, f, 0);
    var look := LookAt(cfg, 0);
    var found, st := LooksHere(cfg, f, look, Initial(run));
    hide Fresh, Looks, PassFrom, Finds, Round, FrameOf, Good, Shows, LookAt, Trio, Fill;
    FirstLook(cfg, f, run, found);
    FirstRoundRunsTwo(cfg, f, run, found);
    var t := Round(cfg, Initial(run), found);
    var u := if cfg.manualTick then t.(stop := true) else Fill(cfg, look, false, t);
    if cfg.manualTick { StopIgnored(cfg, f, t); } else { FillWhileBothRun(cfg, f, t); }
    TwoExecuting(cfg, f, u);
    StartsWithRound(cfg, look, run, found, u);
  }

  /** The statuses after task i has come to its end: its own outcome, and what it promotes. */
  ghost predicate Ends(a: seq<Status>, b: seq<Status>, i: nat, outcome: Status) {
    && |a| == |b| && i < |a| && b[i] == outcome
    && forall k :: 0 <= k < |a| && k != i ==> b[k] == a[k] || (b[k] == Queued && Unstarted(a[k]))
  }

  lemma DoneEnds(cfg: Config, f: Frame, s: State, i: nat)
    requires FrameOf(cfg, f) && Good(cfg, f, s) && i in s.ended
    ensures i < |f.ok| == |f.ids|
    ensures Ends(Statuses(s.run.items), Statuses(Finish(cfg, s, i).run.items), i, if f.ok[i] then Success else Failed)
  {
    EndedFacts(cfg, f, s, i);
    hide FrameOf, Good, Outgoing, Finish, Inv, Evolves, PlainItems, PromotesItems, Ends;
    var items := FinishedItems(cfg, f, s, i);
    var targets := set e | e in Outgoing(cfg.g.definition.edges, f.ids[i]) :: e.to;
    PromotedEnds(s.run.items, items, Finish(cfg, s, i).run.items, targets, i, if f.ok[i] then Success else Failed);
  }

  lemma PromotedEnds(before: seq<ItemRun>, items: seq<ItemRun>, after: seq<ItemRun>, targets: set<Id>, i: nat, outcome: Status)
    requires |items| == |before| && i < |items| && items[i].status == outcome && outcome in {Success, Failed}
    requires forall k :: 0 <= k < |items| && k != i ==> items[k] == before[k]
    requires PromotesItems(items, after, targets)
    ensures Ends(Statuses(before), Statuses(after), i, outcome)
  {
  }

  /** A task under way runs from beginning to end: its result is the verdict of its node. */
  lemma RunTask(cfg: Config, f: Frame, s: State, i: nat) returns (s1: State, s2: State, s3: State)
    requires FrameOf(cfg, f) && Good(cfg, f, s) && s.phase.Racing? && i in s.executing && i < |f.ids|
    requires s.begun == {} && s.ended == map[] && VerdictOf(cfg, f.ids[i]) != NoSession
    ensures Next(cfg, s, s1) && Next(cfg, s1, s2) && Next(cfg, s2, s3) && Good(cfg, f, s3)
    ensures Ends(Statuses(s.run.items), Statuses(s3.run.items), i, if VerdictOf(cfg, f.ids[i]).Succeed? then Success else Failed)
    ensures s3 == s.(run := s3.run, executing := s.executing - {i},
                     settled := s.settled[i := Drain.ResultOf(VerdictOf(cfg, f.ids[i]))])
  {
    assert f.ok[i] == VerdictOf(cfg, f.ids[i]).Succeed?;
    hide FrameOf, Good, VerdictOf, Ends, Next, Statuses;
    s1 := BeginTask(cfg, f, s, i);
    s2 := EndTask(cfg, f, s1, i);
    s3 := DoneTask(cfg, f, s2, i);
    TaskFields(s, s1, s2, s3, i, VerdictOf(cfg, f.ids[i]));
  }

  lemma TaskFields(s: State, s1: State, s2: State, s3: State, i: nat, verdict: Verdict)
    requires s.begun == {} && s.ended == map[]
    requires s1 == s.(run := s.run.(nodes := s1.run.nodes), begun := s.begun + {i})
    requires s2 == s1.(run := s1.run.(nodes := s2.run.nodes), ended := s1.ended[i := verdict])
    requires s3 == s2.(run := s3.run, executing := s2.executing - {i}, begun := s2.begun - {i}, ended := s2.ended - {i},
                       settled := s2.settled[i := Drain.ResultOf(verdict)])
    ensures s2.run.items == s.run.items
    ensures s3 == s.(run := s3.run, executing := s.executing - {i}, settled := s.settled[i := Drain.ResultOf(verdict)])
  {
    assert s3.begun == {} && s3.ended == map[];
  }

  lemma DoneTask(cfg: Config, f: Frame, s: State, i: nat) returns (t: State)
    requires FrameOf(cfg, f) && Good(cfg, f, s) && s.phase.Racing? && i in s.ended && i in s.executing
    ensures Next(cfg, s, t) && Good(cfg, f, t) && i < |f.ok|
    ensures Ends(Statuses(s.run.items), Statuses(t.run.items), i, if f.ok[i] then Success else Failed)
    ensures t == s.(run := t.run, executing := s.executing - {i}, begun := s.begun - {i}, ended := s.ended - {i},
                    settled := s.settled[i := Drain.ResultOf(s.ended[i])])
  {
    TaskIsItem(cfg, f, s, i);
    hide FrameOf, Good, Finish, Ends;
    t := Finish(cfg, s, i);
    StepIsNext(cfg, s, Done(i));
    FinishGood(cfg, f, s, i);
    DoneFields(cfg, f, s, i);
    DoneEnds(cfg, f, s, i);
  }

  /** Both tasks have settled, one of them with a halting result. */
  ghost predicate BothSettled(cfg: Config, f: Frame, s: State) {
    && Good(cfg, f, s) && Shows(f, Statuses(s.run.items), Success, Failed)
    && s.executing == {} && s.settled == map[0 := TaskOk, 1 := TaskFailed(true)]
    && s.executed == 2 && !s.hardFailed && s.phase.Racing?
  }

  lemma ShowsAfter(f: Frame, a: seq<Status>, b: seq<Status>, c: seq<Status>)
    requires Shows(f, a, Running, Running) && Ends(a, b, 0, Success) && Ends(b, c, 1, Failed)
    ensures Shows(f, c, Success, Failed)
  {
  }

  lemma SettleBoth(cfg: Config, f: Frame, s: State) returns (states: seq<State>, t: State)
    requires Trio(cfg, f) && TwoUnder(cfg, f, s)
    ensures Linked(states + [t], (a: State, b: State) => Next(cfg, a, b)) && (states + [t])[0] == s
    ensures BothSettled(cfg, f, t) && t.stop == s.stop
  {
    TwoExecuting(cfg, f, s);
    hide FrameOf, Good, Shows, Ends, Next, Linked, VerdictOf, Statuses, Active;
    var s1, s2, s3 := RunTask(cfg, f, s, 0);
    var s4, s5, s6 := RunTask(cfg, f, s3, 1);
    ShowsAfter(f, Statuses(s.run.items), Statuses(s3.run.items), Statuses(s6.run.items));
    states, t := [s, s1, s2, s3, s4, s5], s6;
    SixSteps(cfg, s, s1, s2, s3, s4, s5, s6);
    assert s6.executing == {};
  }

  lemma SixSteps(cfg: Config, s: State, s1: State, s2: State, s3: State, s4: State, s5: State, s6: State)
    requires Next(cfg, s, s1) && Next(cfg, s1, s2) && Next(cfg, s2, s3)
    requires Next(cfg, s3, s4) && Next(cfg, s4, s5) && Next(cfg, s5, s6)
    ensures Linked([s, s1, s2, s3, s4, s5] + [s6], (a: State, b: State) => Next(cfg, a, b))
  {
    hide Next;
  }

  /** The loop looks at the success, and both tasks leave the active set. */
  const LOOK_AWAY := Resume(0, {0, 1}, 0, false)

  lemma LooksAway(cfg: Config, f: Frame, s: State) returns (s1: State, t: State)
    requires BothSettled(cfg, f, s)
    ensures DropStep(cfg, s, LOOK_AWAY, t) && !t.hardFailed
    ensures s1 == s.(settled := map[]) && Good(cfg, f, s1)
    ensures t == if cfg.manualTick && s.stop then s1.(phase := WaitingForAll) else Body(cfg, LookAt(cfg, 0), false, s1)
  {
    assert Halted(s, 1) && s.settled - {0, 1} == map[];
    s1 := Collect(s, 0, {0, 1}, false);
    CollectGood(cfg, f, s, 0, {0, 1}, false);
    hide Good, Body, LookAt, Shows;
    t := Step(cfg, s, LOOK_AWAY);
    StepFlag(cfg, s, LOOK_AWAY);
  }

  /** The next look finds the third node if it is enabled, and nothing otherwise. */
  lemma LookAfterBoth(cfg: Config, f: Frame, s: State) returns (found: Found)
    requires Trio(cfg, f) && Good(cfg, f, s) && Shows(f, Statuses(s.run.items), Success, Failed)
    ensures LookAt(cfg, 0)(s.run) == Some(found) && (found.candidates == [] <==> !f.dag.on[2])
  {
    EnabledIds(cfg, f);
    hide LookAt, Looks, PassFrom, Good, FrameOf, Restated, NodesFollow, FreshBatch, Enabled;
    LookAtLooks(cfg, f, 0);
    var st;
    found, st := LooksHere(cfg, f, LookAt(cfg, 0), s);
    TrioPass(cfg, f, Statuses(s.run.items), Success, Failed, st);
    if f.dag.on[2] {
      assert NodeItem(2) in found.candidates;
    } else {
      TrioQueued(f, st, Success, Failed);
      NothingQueued(cfg, f, s, found, st);
    }
  }

  lemma BodyLaunches(cfg: Config, look: Look, s: State, found: Found)
    requires look(s.run) == Some(found) && found.candidates != [] && !cfg.manualTick
    requires Active(s) == 0 && !s.stop && s.executed < Limit(cfg)
    ensures Body(cfg, look, false, s).executed > s.executed
  {
    RoundCounts(cfg, s, found);
    FillKeeps(cfg, look, false, Round(cfg, s, found));
    hide Round, Active, SyncNodes;
    assert Fill(cfg, look, false, s) == Fill(cfg, look, false, Round(cfg, s, found));
  }

  /** A drain that has come to where both tasks have settled. */
  ghost predicate Reaches(cfg: Config, f: Frame, run: Run, states: seq<State>, s: State) {
    && IsDrain(cfg, run, states + [s])
    && BothSettled(cfg, f, s) && s.stop == cfg.manualTick
  }

  lemma BothSettle(cfg: Config, f: Frame, run: Run) returns (states: seq<State>, s: State)
    requires Trio(cfg, f) && Good(cfg, f, Initial(run)) && Fresh(f.dag, Statuses(run.items))
    requires MaxConcurrency(cfg) >= 2 && Limit(cfg) >= 1
    ensures Reaches(cfg, f, run, states, s)
  {
    TrioStart(cfg, f, run);
    PlainIsNodesOnly(cfg.g, f.ids);
    hide FrameOf, Good, Fresh, BothSettled, TwoUnder, Start, NodesOnly, Next;
    states, s := SettleBoth(cfg, f, Start(cfg, 0, false, run));
  }

  lemma DrainSnoc(cfg: Config, run: Run, states: seq<State>, t: State)
    requires IsDrain(cfg, run, states) && Next(cfg, states[|states| - 1], t)
    ensures IsDrain(cfg, run, states + [t])
  {
    hide Next, Start, NodesOnly;
    LinkedSnoc(cfg, states, t);
    assert (states + [t])[0] == states[0];
  }

  lemma DropsLast(cfg: Config, front: seq<State>, s: State, t: State)
    requires Drops(cfg, s, t)
    ensures DropsAt(cfg, front + [s] + [t], |front|)
  {
    hide Drops;
    var states := front + [s] + [t];
    assert states[|front|] == s && states[|front| + 1] == t;
  }

  lemma DropsEarlier(cfg: Config, states: seq<State>, k: nat, t: State)
    requires DropsAt(cfg, states, k)
    ensures DropsAt(cfg, states + [t], k)
  {
    hide Drops;
  }

  lemma MissesLast(cfg: Config, states: seq<State>, k: nat, last: State)
    requires DropsAt(cfg, states + [last], k) && !last.hardFailed
    ensures MissesHalt(cfg, states + [last])
  {
    hide DropsAt;
    assert (states + [last])[|states|] == last;
  }

  /** Such a drain goes on by looking away. */
  lemma LooksAwayThere(cfg: Config, f: Frame, run: Run) returns (front: seq<State>, s: State, s1: State, t: State)
    requires Trio(cfg, f) && Good(cfg, f, Initial(run)) && Fresh(f.dag, Statuses(run.items))
    requires MaxConcurrency(cfg) >= 2 && Limit(cfg) >= 1
    ensures IsDrain(cfg, run, front + [s] + [t]) && DropsAt(cfg, front + [s] + [t], |front|) && !t.hardFailed
    ensures BothSettled(cfg, f, s) && s.stop == cfg.manualTick && s1 == s.(settled := map[]) && Good(cfg, f, s1)
    ensures t == if cfg.manualTick && s.stop then s1.(phase := WaitingForAll) else Body(cfg, LookAt(cfg, 0), false, s1)
  {
    hide Trio, Good, Fresh, BothSettled, IsDrain, DropsAt, Body, LookAt, DropStep, Next, Reaches;
    front, s := BothSettle(cfg, f, run);
    ReachedFacts(cfg, f, run, front, s);
    s1, t := LooksAway(cfg, f, s);
    DropIsNext(cfg, s, t);
    DrainSnoc(cfg, run, front + [s], t);
    DropsLast(cfg, front, s, t);
  }

  lemma ReachedFacts(cfg: Config, f: Frame, run: Run, states: seq<State>, s: State)
    requires Reaches(cfg, f, run, states, s)
    ensures IsDrain(cfg, run, states + [s]) && BothSettled(cfg, f, s) && s.stop == cfg.manualTick
    ensures (states + [s])[|states + [s]| - 1] == s
  {
    hide IsDrain, BothSettled;
  }

  lemma DropIsNext(cfg: Config, s: State, t: State)
    requires DropStep(cfg, s, LOOK_AWAY, t)
    ensures Next(cfg, s, t) && Drops(cfg, s, t)
  {
    hide DropsHalt, Step, Allowed;
  }

  lemma AwaitsNothing(cfg: Config, s: State) returns (t: State)
    requires s.phase.WaitingForAll? && s.executing == {} && !s.hardFailed
    ensures Next(cfg, s, t) && t.phase.Exited? && !t.hardFailed
  {
    hide SyncNodes;
    t := Step(cfg, s, AllDone);
    StepIsNext(cfg, s, AllDone);
  }

  /** When the third node is disabled the drain ends there. */
  lemma MissAndEnd(cfg: Config, f: Frame, run: Run) returns (states: seq<State>, last: State)
    requires Trio(cfg, f) && Good(cfg, f, Initial(run)) && Fresh(f.dag, Statuses(run.items)) && !f.dag.on[2]
    requires MaxConcurrency(cfg) >= 2 && Limit(cfg) >= 1
    ensures IsDrain(cfg, run, states + [last]) && MissesHalt(cfg, states + [last]) && last.phase.Exited?
  {
    var front, s, s1, t := LooksAwayThere(cfg, f, run);
    EndsAfter(cfg, f, s, s1, t);
    hide Trio, Good, Fresh, BothSettled, IsDrain, DropsAt, Body, LookAt, Next, MissesHalt;
    if cfg.manualTick {
      var u := AwaitsNothing(cfg, t);
      AppendLast(cfg, run, front + [s], t, u);
      DropsEarlier(cfg, front + [s] + [t], |front|, u);
      states, last := front + [s] + [t], u;
    } else {
      states, last := front + [s], t;
    }
    MissesLast(cfg, states, |front|, last);
  }

  lemma AppendLast(cfg: Config, run: Run, states: seq<State>, s: State, t: State)
    requires IsDrain(cfg, run, states + [s]) && Next(cfg, s, t)
    ensures IsDrain(cfg, run, states + [s] + [t])
  {
    hide IsDrain, Next;
    assert (states + [s])[|states|] == s;
    DrainSnoc(cfg, run, states + [s], t);
  }

  lemma EndsAfter(cfg: Config, f: Frame, s: State, s1: State, t: State)
    requires Trio(cfg, f) && BothSettled(cfg, f, s) && !f.dag.on[2] && s.stop == cfg.manualTick
    requires s1 == s.(settled := map[]) && Good(cfg, f, s1)
    requires t == if cfg.manualTick && s.stop then s1.(phase := WaitingForAll) else Body(cfg, LookAt(cfg, 0), false, s1)
    ensures if cfg.manualTick then t.phase.WaitingForAll? && t.executing == {} else t.phase.Exited?
  {
    hide Good, LookAt, FrameOf, Shows, SyncNodes;
    if !cfg.manualTick && s1.executed < Limit(cfg) {
      var found := LookAfterBoth(cfg, f, s1);
      assert |s1.executing| == 0 && |s1.settled.Keys| == 0;
      LookNothing(cfg, LookAt(cfg, 0), s1, found);
    }
  }

  /** When it is enabled, and a third launch allowed, the loop launches it. */
  lemma MissAndLaunch(cfg: Config, f: Frame, run: Run) returns (states: seq<State>, k: nat)
    requires Trio(cfg, f) && Good(cfg, f, Initial(run)) && Fresh(f.dag, Statuses(run.items)) && f.dag.on[2]
    requires MaxConcurrency(cfg) >= 2 && Limit(cfg) >= 3 && !cfg.manualTick
    ensures IsDrain(cfg, run, states) && LaunchesPast(cfg, states, k)
  {
    var front, s, s1, t := LooksAwayThere(cfg, f, run);
    LaunchesAfter(cfg, f, s, s1);
    hide Trio, Good, Fresh, BothSettled, IsDrain, DropsAt, Body, LookAt, LaunchesPast;
    states, k := front + [s] + [t], |front|;
    LaunchesLast(cfg, front, s, t);
  }

  lemma LaunchesLast(cfg: Config, front: seq<State>, s: State, t: State)
    requires DropsAt(cfg, front + [s] + [t], |front|) && !t.hardFailed && t.executed > s.executed
    ensures LaunchesPast(cfg, front + [s] + [t], |front|)
  {
    hide DropsAt;
    var states := front + [s] + [t];
    assert states[|front|] == s && states[|front| + 1] == t;
  }

  lemma LaunchesAfter(cfg: Config, f: Frame, s: State, s1: State)
    requires Trio(cfg, f) && BothSettled(cfg, f, s) && f.dag.on[2] && !s.stop
    requires s1 == s.(settled := map[]) && Good(cfg, f, s1) && Limit(cfg) >= 3 && !cfg.manualTick
    ensures Body(cfg, LookAt(cfg, 0), false, s1).executed > s.executed
  {
    hide Good, LookAt, FrameOf, Shows, Body;
    var found := LookAfterBoth(cfg, f, s1);
    assert |s1.executing| == 0 && |s1.settled.Keys| == 0;
    BodyLaunches(cfg, LookAt(cfg, 0), s1, found);
  }

  // ---------------------------------------------------------------- a workflow of three nodes

  function TaskNode(id: Id, enabled: bool): Node {
    Node(id, id, "task", enabled, true, MainLane, None, Executor("agent", "", None, None), "single", "single", None, None,
         RetryPolicy(1, 0), OutputSpec("json", 1), "", false, 0, None)
  }

  /** Two independent nodes, and one that needs the first. */
  function ThreeNodes(scheduler: Scheduler, third: bool): Definition {
    Definition(scheduler, [], None, [TaskNode("a", true), TaskNode("b", true), TaskNode("c", third)],
               [Edge("a", "c", None)], [])
  }

  function ThreeNodeRun(): Run {
    Run([NodeRun("a", Queued, []), NodeRun("b", Queued, []), NodeRun("c", Queued, [])], [], [], [])
  }

  function SecondHalts(w: Definition, manualTick: bool): Config {
    Config(Build(w), w.scheduler, ["k"], manualTick, map["a" := Succeed, "b" := Fail(true, true)])
  }

  /** All that the argument needs to know of it. */
  ghost predicate IsThreeNodes(w: Definition, third: bool) {
    && |w.nodes| == 3 && NodeIds(w.nodes) == ["a", "b", "c"]
    && w.nodes[0].enabled && w.nodes[1].enabled && w.nodes[2].enabled == third
    && (forall n :: n in w.nodes ==>
          n.parallelGroupId.None? && n.routeAllowed.None? && n.dependencyPolicy.None? && n.branchScopeId.None?)
    && w.edges == [Edge("a", "c", None)] && w.groups == []
  }

  lemma ThreeNodesAre(scheduler: Scheduler, third: bool)
    ensures IsThreeNodes(ThreeNodes(scheduler, third), third) && Unseeded(ThreeNodes(scheduler, third), ThreeNodeRun())
  {
  }

  lemma ThreeEdges(edges: seq<Link>, entities: seq<Id>)
    requires edges == [Edge("a", "c", None)] && "a" in entities && "c" in entities
    ensures Acyclic(edges) && EdgesOk(entities, edges)
  {
    var order := ["a", "c"];
    assert order[..1] == ["a"];
    assert Topological(edges, order);
    OrderedIsAcyclic(edges, order, order);
  }

  lemma ThreeAccepted(w: Definition, third: bool)
    requires IsThreeNodes(w, third)
    ensures Accepts(w) && PlainWorkflow(w)
  {
    hide Acyclic, EdgesOk, Accepts;
    var ids := NodeIds(w.nodes);
    assert ids[0] == "a" && ids[2] == "c";
    assert GroupIds(w.groups) == [] && ids + [] == ids;
    ThreeEdges(w.edges, EntityIds(w));
    UnscopedAccepted(w);
  }

  /** By position: the first two depend on nothing, the third on the first. */
  lemma ThreeSources(g: Graph, ids: seq<Id>)
    requires ids == ["a", "b", "c"] && g.definition.edges == [Edge("a", "c", None)]
    ensures DagOf(g, ids).sources == [{}, {}, {0}]
  {
    var edges, sources := g.definition.edges, DagOf(g, ids).sources;
    assert edges[0] in edges;
    assert HasEdge(g, ids[0], ids[2]);
    assert sources[0] == {} && sources[1] == {} && sources[2] == {0};
  }

  lemma ThreeFrame(w: Definition, third: bool, manualTick: bool, run: Run) returns (f: Frame, seeded: Run)
    requires IsThreeNodes(w, third) && Unseeded(w, run)
    ensures var cfg := SecondHalts(w, manualTick);
            && seeded == EnsureItems(cfg.g, ["k"], run) && Trio(cfg, f) && f.dag.on[2] == third
            && Good(cfg, f, Initial(seeded)) && Fresh(f.dag, Statuses(seeded.items))
            && Accepts(w) && PlainWorkflow(w)
  {
    var cfg := SecondHalts(w, manualTick);
    ThreeAccepted(w, third);
    var rank := AcceptedIsRanked(w);
    seeded := EnsureItems(cfg.g, ["k"], run);
    AcceptedRunIsFresh(w, "k", run);
    FreshIsReady(cfg, "k", seeded);
    f := FrameFor(cfg, "k", seeded, rank);
    FrameIsFrame(cfg, "k", seeded, rank);
    InitialGood(cfg, "k", seeded, rank);
    ThreeSources(cfg.g, f.ids);
    EnabledByName(w, w.nodes[0]);
    EnabledByName(w, w.nodes[1]);
    EnabledByName(w, w.nodes[2]);
    EnabledIds(cfg, f);
  }

  // ---------------------------------------------------------------- exactly which settings

  lemma SeededKnown(scheduler: Scheduler, manualTick: bool, w: Definition, keys: seq<string>, run: Run, cfg: Config, states: seq<State>)
    requires SeededDrain(scheduler, manualTick, w, keys, run, cfg, states)
    ensures Known(EnsureItems(cfg.g, keys, run)) && IsDrain(cfg, EnsureItems(cfg.g, keys, run), states)
    ensures cfg.scheduler == scheduler && cfg.manualTick == manualTick
  {
    SeededIsKnown(w, keys, run);
  }

  lemma EndsMissing(scheduler: Scheduler, manualTick: bool)
    requires scheduler.maxConcurrency >= 2 && scheduler.maxGlobalIterations >= 1
    ensures CanMiss(scheduler, manualTick) && CanEndMissing(scheduler, manualTick)
  {
    hide EnsureItems, Build, Trio, Good, Fresh, IsDrain, MissesHalt, Accepts, PlainWorkflow, IsThreeNodes, Unseeded;
    var w, run := ThreeNodes(scheduler, false), ThreeNodeRun();
    ThreeNodesAre(scheduler, false);
    var f, seeded := ThreeFrame(w, false, manualTick, run);
    var cfg := SecondHalts(w, manualTick);
    var states, last := MissAndEnd(cfg, f, seeded);
    assert SeededDrain(scheduler, manualTick, w, ["k"], run, cfg, states + [last]);
  }

  lemma LaunchesPastOne(scheduler: Scheduler)
    requires scheduler.maxConcurrency >= 2 && scheduler.maxGlobalIterations >= 3
    ensures CanLaunchPast(scheduler, false)
  {
    hide EnsureItems, Build, Trio, Good, Fresh, IsDrain, LaunchesPast, Accepts, PlainWorkflow, IsThreeNodes, Unseeded;
    var w, run := ThreeNodes(scheduler, true), ThreeNodeRun();
    ThreeNodesAre(scheduler, true);
    var f, seeded := ThreeFrame(w, true, false, run);
    var cfg := SecondHalts(w, false);
    var states, k := MissAndLaunch(cfg, f, seeded);
    assert SeededDrain(scheduler, false, w, ["k"], run, cfg, states);
  }

  /**
   * A drain of some accepted plain workflow can drop a halting result and report no hard failure, and can even
   * end that way, exactly when two tasks can be active at once and one may be launched at all.
   */
  lemma MissesExactly(scheduler: Scheduler, manualTick: bool)
    ensures CanMiss(scheduler, manualTick) <==> scheduler.maxConcurrency >= 2 && scheduler.maxGlobalIterations >= 1
    ensures CanEndMissing(scheduler, manualTick) <==> scheduler.maxConcurrency >= 2 && scheduler.maxGlobalIterations >= 1
  {
    hide SeededDrain, MissesHalt, Known, IsDrain;
    if scheduler.maxConcurrency >= 2 && scheduler.maxGlobalIterations >= 1 {
      EndsMissing(scheduler, manualTick);
    } else {
      forall w: Definition, keys: seq<string>, run: Run, cfg: Config, states: seq<State>
        | SeededDrain(scheduler, manualTick, w, keys, run, cfg, states)
        ensures !MissesHalt(cfg, states)
      {
        SeededKnown(scheduler, manualTick, w, keys, run, cfg, states);
        if MissesHalt(cfg, states) { MissNeeds(cfg, EnsureItems(cfg.g, keys, run), states); }
      }
    }
  }

  /**
   * A drain of some accepted plain workflow can launch tasks in the very step that drops a halting result unseen,
   * exactly when two tasks can be active at once, a third may be launched, and the drain is not a manual tick.
   */
  lemma LaunchesPastExactly(scheduler: Scheduler, manualTick: bool)
    ensures CanLaunchPast(scheduler, manualTick) <==>
              scheduler.maxConcurrency >= 2 && scheduler.maxGlobalIterations >= 3 && !manualTick
  {
    hide SeededDrain, LaunchesPast, Known, IsDrain;
    if scheduler.maxConcurrency >= 2 && scheduler.maxGlobalIterations >= 3 && !manualTick {
      LaunchesPastOne(scheduler);
    } else {
      forall w: Definition, keys: seq<string>, run: Run, cfg: Config, states: seq<State>, k: nat
        | SeededDrain(scheduler, manualTick, w, keys, run, cfg, states)
        ensures !LaunchesPast(cfg, states, k)
      {
        SeededKnown(scheduler, manualTick, w, keys, run, cfg, states);
        if LaunchesPast(cfg, states, k) { LaunchesPastNeeds(cfg, EnsureItems(cfg.g, keys, run), states, k); }
      }
    }
  }
}
