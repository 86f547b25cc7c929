/** The invariant of drains of the plain fragment: what every step keeps of the run, its nodes and its tasks. */
module DrainOutcome {
  import opened Common
  import opened Digraph
  import opened Workflow
  import opened WorkflowGraph
  import opened StateMachine
  import opened RunModel
  import opened Retry
  import opened Readiness
  import opened Fragment
  import opened Runs
  import opened Drain
  import opened DrainTasks
  import opened Scheduling
  import opened PlainRuns

  /** The verdict of each node, by position. */
  function Oks(cfg: Config, ids: seq<Id>): (r: seq<bool>)
    ensures |r| == |ids| && forall i :: 0 <= i < |ids| ==> r[i] == VerdictOf(cfg, ids[i]).Succeed?
  {
    seq(|ids|, i requires 0 <= i < |ids| => VerdictOf(cfg, ids[i]).Succeed?)
  }

  /** What a drain of the fragment fixes once and for all. */
  datatype Frame = Frame(ids: seq<Id>, nodeIds: seq<Id>, itemKey: string, ghost dag: Dag, rank: seq<nat>, ok: seq<bool>)

  ghost predicate FrameOf(cfg: Config, f: Frame) {
    && PlainGraph(cfg.g, f.ids)
    && f.dag == DagOf(cfg.g, f.ids)
    && f.dag.Ranked(f.rank)
    && f.ok == Oks(cfg, f.ids)
  }

  /** Items that have not started have an attempt left. */
  ghost predicate Untried(g: Graph, items: seq<ItemRun>) {
    forall i :: 0 <= i < |items| && Unstarted(items[i].status) ==> items[i].attempt < MaxAttempts(g, items[i].nodeId)
  }

  /** The node of a running item can take the statuses that the run of the item will give it. */
  predicate NodeFits(nodes: seq<NodeRun>, id: Id, begun: bool) {
    var k := NodeIndex(nodes, id);
    k < |nodes| ==> nodes[k].status in (if begun then {Running} else {Queued, Running})
  }

  /** The tasks under way: their nodes fit, and an agent run that is over had the verdict of its node. */
  ghost predicate Underway(cfg: Config, ids: seq<Id>, s: State) {
    && (forall i :: i in s.executing ==> i < |ids|)
    && s.begun <= s.executing && s.ended.Keys <= s.executing
    && (forall i :: i in s.ended ==> s.ended[i] == VerdictOf(cfg, ids[i]))
    && (forall i :: i in s.executing && i !in s.ended ==> NodeFits(s.run.nodes, ids[i], i in s.begun))
  }

  ghost predicate Good(cfg: Config, f: Frame, s: State) {
    && PlainRun(cfg.g, f.ids, f.itemKey, s.run)
    && NodeRunIds(s.run.nodes) == f.nodeIds
    && Inv(f.dag, f.ok, Statuses(s.run.items))
    && (forall i :: 0 <= i < |f.ids| ==> (s.run.items[i].status == Running <==> i in s.executing))
    && Underway(cfg, f.ids, s)
    && Untried(cfg.g, s.run.items)
    && !s.phase.Crashed?
  }

  /** Enabled items keep their outcomes from one state to the other. */
  ghost predicate Later(f: Frame, a: State, b: State) {
    Evolves(f.dag, Statuses(a.run.items), Statuses(b.run.items))
  }

  lemma LaterTransitive(f: Frame, a: State, b: State, c: State)
    requires Later(f, a, b) && Later(f, b, c)
    ensures Later(f, a, c)
  {
  }

  lemma SamePlainRun(g: Graph, ids: seq<Id>, itemKey: string, a: Run, b: Run)
    requires PlainRun(g, ids, itemKey, a)
    requires Subjects(b.items) == Subjects(a.items) && NodeRunIds(b.nodes) == NodeRunIds(a.nodes) && PlainItems(b.items, itemKey)
    requires b.groups == []
    ensures PlainRun(g, ids, itemKey, b)
  {
    assert forall i :: 0 <= i < |a.items| ==> Subjects(a.items)[i] == Subjects(b.items)[i];
    assert ItemNodeIds(a.items) == ItemNodeIds(b.items);
  }

  // ---------------------------------------------------------------- launching

  lemma LaunchGood(cfg: Config, f: Frame, s: State, i: nat)
    requires FrameOf(cfg, f) && Good(cfg, f, s) && i < |f.ids| && NodeFits(s.run.nodes, f.ids[i], false)
    requires s.run.items[i].status == Queued && f.dag.on[i] && CanStart(f.dag, Statuses(s.run.items), i)
    ensures var t := Launch(cfg, s, i);
            && Good(cfg, f, t) && Later(f, s, t)
            && t.executing == s.executing + {i} && t.settled == s.settled && t.run.nodes == s.run.nodes
            && Statuses(t.run.items) == Statuses(s.run.items)[i := Running]
  {
    var t := Launch(cfg, s, i);
    assert s.run.items[i].attempt < MaxAttempts(cfg.g, s.run.items[i].nodeId);
    StartKeepsInv(f.dag, f.rank, f.ok, Statuses(s.run.items), i);
    assert Statuses(t.run.items) == Statuses(s.run.items)[i := Running];
    assert Subjects(t.run.items) == Subjects(s.run.items);
    SamePlainRun(cfg.g, f.ids, f.itemKey, s.run, t.run);
    LaunchUnderway(cfg, f.ids, s, t, i);
    hide MaxAttempts, Known, NodesOnly, NodeIndex, Underway;
  }

  lemma LaunchUnderway(cfg: Config, ids: seq<Id>, s: State, t: State, i: nat)
    requires Underway(cfg, ids, s) && i !in s.executing && i < |ids| && NodeFits(s.run.nodes, ids[i], false)
    requires t.executing == s.executing + {i} && t.begun == s.begun && t.ended == s.ended && t.run.nodes == s.run.nodes
    ensures Underway(cfg, ids, t)
  {
    hide NodeFits;
  }

  /** A batch whose items may all start, their nodes waiting for them. */
  ghost predicate MayStart(f: Frame, run: Run, batch: seq<Candidate>) {
    && Fits(f.dag, Statuses(run.items)) && |f.ids| == |run.items|
    && forall c :: c in batch ==>
         && c.NodeItem? && c.index < |run.items|
         && CanStart(f.dag, Statuses(run.items), c.index) && NodeFits(run.nodes, f.ids[c.index], false)
  }

  lemma StillMayStart(f: Frame, a: Run, b: Run, batch: seq<Candidate>)
    requires Evolves(f.dag, Statuses(a.items), Statuses(b.items)) && MayStart(f, a, batch) && b.nodes == a.nodes
    ensures MayStart(f, b, batch)
  {
    forall c | c in batch
      ensures c.NodeItem? && c.index < |b.items| && CanStart(f.dag, Statuses(b.items), c.index)
    {
      JudgementStays(f.dag, Statuses(a.items), Statuses(b.items), c.index);
    }
  }

  lemma EnabledAt(cfg: Config, f: Frame, s: State, i: nat)
    requires FrameOf(cfg, f) && Good(cfg, f, s) && i < |s.run.items|
    ensures |s.run.items| == |f.ids| == |f.dag.on| && s.run.items[i].nodeId == f.ids[i]
    ensures f.dag.on[i] <==> Enabled(cfg.g, s.run.items[i].nodeId)
  {
    assert s.run.items[i].nodeId == ItemNodeIds(s.run.items)[i];
  }

  lemma LaunchedOthers(cfg: Config, s: State, i: nat)
    requires i < |s.run.items|
    ensures |Launch(cfg, s, i).run.items| == |s.run.items|
    ensures forall k :: 0 <= k < |s.run.items| && k != i ==> Launch(cfg, s, i).run.items[k] == s.run.items[k]
  {
  }

  lemma {:induction false} LaunchAllGood(cfg: Config, f: Frame, s: State, batch: seq<Candidate>)
    requires FrameOf(cfg, f) && Good(cfg, f, s)
    requires FreshBatch(cfg.g, s.run.items, batch) && MayStart(f, s.run, batch)
    ensures var t := LaunchAll(cfg, s, batch);
            && Good(cfg, f, t) && Later(f, s, t)
            && s.executing <= t.executing && t.settled == s.settled && (batch != [] ==> t.executing != {})
    decreases |batch|
  {
    hide Good, CanStart, NodeFits, Launch;
    if batch == [] {
    } else {
      var i := batch[0].index;
      assert batch[0] in batch && batch[0] == NodeItem(i);
      EnabledAt(cfg, f, s, i);
      var t := Launch(cfg, s, i);
      LaunchGood(cfg, f, s, i);
      LaunchedOthers(cfg, s, i);
      TailFresh(cfg.g, s.run.items, t.run.items, batch);
      StillMayStart(f, s.run, t.run, batch[1..]);
      LaunchAllGood(cfg, f, t, batch[1..]);
      LaterTransitive(f, s, t, LaunchAll(cfg, t, batch[1..]));
    }
  }

  // ---------------------------------------------------------------- looking

  /** Looking never raises and finds the state after one pass. */
  ghost predicate Looks(cfg: Config, f: Frame, look: Look) {
    forall run :: PlainRun(cfg.g, f.ids, f.itemKey, run) && Inv(f.dag, f.ok, Statuses(run.items)) ==> LooksAt(cfg, f, look, run)
  }

  ghost predicate LooksAt(cfg: Config, f: Frame, look: Look, run: Run) {
    && Fits(f.dag, Statuses(run.items))
    && PassFrom(f.dag, Statuses(run.items), 0).Some?
    && look(run).Some?
    && Finds(cfg.g, f.ids, run, PassFrom(f.dag, Statuses(run.items), 0).value, look(run).value)
  }

  lemma LookAtLooks(cfg: Config, f: Frame, now: int)
    requires FrameOf(cfg, f)
    ensures Looks(cfg, f, LookAt(cfg, now))
  {
    forall run | PlainRun(cfg.g, f.ids, f.itemKey, run) && Inv(f.dag, f.ok, Statuses(run.items))
      ensures LooksAt(cfg, f, LookAt(cfg, now), run)
    {
      PassSafe(f.dag, f.rank, f.ok, Statuses(run.items), 0);
      LookByPosition(cfg, now, f.ids, f.itemKey, run);
    }
  }

  lemma FoundGood(cfg: Config, f: Frame, s: State, found: Found, st: seq<Status>)
    requires FrameOf(cfg, f) && Good(cfg, f, s)
    requires PassFrom(f.dag, Statuses(s.run.items), 0) == Some(st) && Finds(cfg.g, f.ids, s.run, st, found)
    ensures var t := s.(run := found.run);
            Good(cfg, f, t) && Later(f, s, t) && Statuses(found.run.items) == st
  {
    var before := Statuses(s.run.items);
    PassSafe(f.dag, f.rank, f.ok, before, 0);
    RestatedFacts(s.run.items, found.run.items, st, f.itemKey);
    SamePlainRun(cfg.g, f.ids, f.itemKey, s.run, found.run);
    forall i | 0 <= i < |f.ids|
      ensures (found.run.items[i].status == Running <==> i in s.executing)
      ensures Unstarted(found.run.items[i].status) ==> found.run.items[i].attempt < MaxAttempts(cfg.g, found.run.items[i].nodeId)
    {
      PassStartsNothing(f.dag, f.rank, f.ok, before, st, i);
    }
    FollowingUnderway(cfg, f.ids, s, found.run);
    hide Underway, PassFrom, Known, NodesOnly, MaxAttempts, FreshBatch, PlainRun;
  }

  /** When nodes follow their items, the node of a running item is running. */
  lemma FollowingFits(ids: seq<Id>, run: Run, i: nat, begun: bool)
    requires NodesFollow(run.nodes, run.items) && ItemNodeIds(run.items) == ids && i < |ids|
    requires run.items[i].status == Running || (run.items[i].status == Queued && !begun)
    ensures NodeFits(run.nodes, ids[i], begun)
  {
    assert ItemNodeIds(run.items)[i] == run.items[i].nodeId;
    var k := NodeIndex(run.nodes, ids[i]);
    assert k < |run.nodes| ==> run.nodes[k].status == run.items[i].status;
  }

  lemma FollowingUnderway(cfg: Config, ids: seq<Id>, s: State, run: Run)
    requires Underway(cfg, ids, s) && NodesFollow(run.nodes, run.items) && ItemNodeIds(run.items) == ids
    requires forall i :: i in s.executing ==> run.items[i].status == Running
    ensures Underway(cfg, ids, s.(run := run))
  {
    forall i | i in s.executing && i !in s.ended ensures NodeFits(run.nodes, ids[i], i in s.begun) {
      FollowingFits(ids, run, i, i in s.begun);
    }
  }

  lemma FoundMayStart(cfg: Config, f: Frame, s: State, found: Found, st: seq<Status>)
    requires FrameOf(cfg, f) && Good(cfg, f, s)
    requires PassFrom(f.dag, Statuses(s.run.items), 0) == Some(st) && Finds(cfg.g, f.ids, s.run, st, found)
    ensures MayStart(f, found.run, found.candidates)
  {
    RestatedFacts(s.run.items, found.run.items, st, f.itemKey);
    forall c | c in found.candidates
      ensures c.NodeItem? && c.index < |found.run.items| && CanStart(f.dag, Statuses(found.run.items), c.index)
      ensures NodeFits(found.run.nodes, f.ids[c.index], false)
    {
      assert found.run.items[c.index].nodeId == f.ids[c.index];
      PassStartsNothing(f.dag, f.rank, f.ok, Statuses(s.run.items), st, c.index);
      FollowingFits(f.ids, found.run, c.index, false);
    }
  }

  /** The statuses are those after a pass that left nothing to launch while nothing was running. */
  ghost predicate AtRest(f: Frame, s: State) {
    exists before :: Quiet(f.dag, f.ok, before, Statuses(s.run.items))
  }

  lemma NothingFound(cfg: Config, f: Frame, s: State, found: Found, st: seq<Status>)
    requires FrameOf(cfg, f) && Good(cfg, f, s) && s.executing == {}
    requires PassFrom(f.dag, Statuses(s.run.items), 0) == Some(st) && Finds(cfg.g, f.ids, s.run, st, found)
    requires found.candidates == []
    ensures AtRest(f, s.(run := found.run))
  {
    FoundGood(cfg, f, s, found, st);
    forall i | 0 <= i < |st| && f.dag.on[i] ensures st[i] !in {Queued, Running} {
      PassStartsNothing(f.dag, f.rank, f.ok, Statuses(s.run.items), st, i);
    }
    assert Quiet(f.dag, f.ok, Statuses(s.run.items), st);
  }

  // ---------------------------------------------------------------- one stretch of the loop

  ghost predicate Stretch(cfg: Config, f: Frame, s: State, t: State) {
    && Good(cfg, f, t) && Later(f, s, t) && t.phase == s.phase
    && (Active(t) == 0 && !t.stop ==> AtRest(f, t))
  }

  lemma CounterIgnored(cfg: Config, f: Frame, t: State, n: int)
    requires Good(cfg, f, t)
    ensures Good(cfg, f, t.(executed := n))
  {
  }

  lemma FirstOfFacts<T(!new)>(s: seq<T>, max: nat)
    requires max >= 1
    ensures forall c :: c in FirstOf(s, max) ==> c in s
    ensures s != [] ==> FirstOf(s, max) != []
  {
  }

  ghost predicate Launched(cfg: Config, f: Frame, s: State, t: State) {
    Good(cfg, f, t) && Later(f, s, t) && t.phase == s.phase
  }

  lemma RoundUnfolds(cfg: Config, s: State, found: Found)
    requires Active(s) < MaxConcurrency(cfg)
    ensures var batch := FirstOf(found.candidates, MaxConcurrency(cfg) - Active(s));
            Round(cfg, s, found) == LaunchAll(cfg, s.(run := found.run), batch).(executed := s.executed + |batch|)
  {
    hide LaunchAll, FirstOf;
  }

  lemma RoundBatch(cfg: Config, s: State, found: Found) returns (batch: seq<Candidate>)
    requires Active(s) < MaxConcurrency(cfg) && FreshBatch(cfg.g, found.run.items, found.candidates) && found.candidates != []
    ensures batch != [] && FreshBatch(cfg.g, found.run.items, batch) && forall c :: c in batch ==> c in found.candidates
    ensures Round(cfg, s, found) == LaunchAll(cfg, s.(run := found.run), batch).(executed := s.executed + |batch|)
  {
    hide Round, LaunchAll, FirstOf, FreshBatch;
    var max := MaxConcurrency(cfg) - Active(s);
    batch := FirstOf(found.candidates, max);
    FirstOfFresh(cfg, found.run.items, found.candidates, max);
    FirstOfFacts(found.candidates, max);
    RoundUnfolds(cfg, s, found);
  }

  lemma BatchGood(cfg: Config, f: Frame, s: State, found: Found, st: seq<Status>, batch: seq<Candidate>, n: int)
    requires FrameOf(cfg, f) && Good(cfg, f, s)
    requires PassFrom(f.dag, Statuses(s.run.items), 0) == Some(st) && Finds(cfg.g, f.ids, s.run, st, found)
    requires FreshBatch(cfg.g, found.run.items, batch) && forall c :: c in batch ==> c in found.candidates
    ensures var t := LaunchAll(cfg, s.(run := found.run), batch).(executed := n);
            Launched(cfg, f, s, t) && (batch != [] ==> t.executing != {})
  {
    FoundGood(cfg, f, s, found, st);
    FoundMayStart(cfg, f, s, found, st);
    LaunchAllGood(cfg, f, s.(run := found.run), batch);
    LaterTransitive(f, s, s.(run := found.run), LaunchAll(cfg, s.(run := found.run), batch));
    CounterIgnored(cfg, f, LaunchAll(cfg, s.(run := found.run), batch), n);
  }

  lemma RoundGood(cfg: Config, f: Frame, s: State, found: Found, st: seq<Status>)
    requires FrameOf(cfg, f) && Good(cfg, f, s) && Active(s) < MaxConcurrency(cfg)
    requires PassFrom(f.dag, Statuses(s.run.items), 0) == Some(st) && Finds(cfg.g, f.ids, s.run, st, found)
    requires found.candidates != []
    ensures Launched(cfg, f, s, Round(cfg, s, found)) && Round(cfg, s, found).executing != {}
  {
    var batch := RoundBatch(cfg, s, found);
    BatchGood(cfg, f, s, found, st, batch, s.executed + |batch|);
  }

  /** What looking finds at a good state. */
  lemma LooksHere(cfg: Config, f: Frame, look: Look, s: State) returns (found: Found, st: seq<Status>)
    requires FrameOf(cfg, f) && Looks(cfg, f, look) && Good(cfg, f, s)
    ensures look(s.run) == Some(found) && Fits(f.dag, Statuses(s.run.items))
    ensures PassFrom(f.dag, Statuses(s.run.items), 0) == Some(st) && Finds(cfg.g, f.ids, s.run, st, found)
  {
    assert LooksAt(cfg, f, look, s.run);
    found, st := look(s.run).value, PassFrom(f.dag, Statuses(s.run.items), 0).value;
  }

  lemma StretchEnds(cfg: Config, f: Frame, s: State)
    requires FrameOf(cfg, f) && Good(cfg, f, s) && (s.stop || Active(s) > 0)
    ensures Stretch(cfg, f, s, s)
  {
  }

  lemma StretchStops(cfg: Config, f: Frame, s: State, t: State)
    requires Launched(cfg, f, s, t)
    ensures Stretch(cfg, f, s, t.(stop := true))
  {
    StopIgnored(cfg, f, t);
  }

  lemma StretchGoesOn(cfg: Config, f: Frame, s: State, t: State, u: State)
    requires Launched(cfg, f, s, t) && Stretch(cfg, f, t, u)
    ensures Stretch(cfg, f, s, u)
  {
    hide Good, AtRest;
    LaterTransitive(f, s, t, u);
  }

  lemma {:induction false} FillGood(cfg: Config, f: Frame, look: Look, aborted: bool, s: State)
    requires FrameOf(cfg, f) && Looks(cfg, f, look) && Good(cfg, f, s)
    requires aborted ==> s.stop
    requires s.executed < Limit(cfg) || Active(s) > 0
    ensures Stretch(cfg, f, s, Fill(cfg, look, aborted, s))
    decreases Limit(cfg) - s.executed
  {
    hide Good, FrameOf, Looks, Stretch, PassFrom, Finds, LaunchAll, Fits;
    if s.stop || aborted || Active(s) >= MaxConcurrency(cfg) || s.executed >= Limit(cfg) {
      StretchEnds(cfg, f, s);
    } else {
      var found, st := LooksHere(cfg, f, look, s);
      if found.candidates == [] {
        IdleStretch(cfg, f, s, found, st);
      } else {
        RoundGood(cfg, f, s, found, st);
        var t := Round(cfg, s, found);
        assert Good(cfg, f, t) && Active(t) > 0 by { RoundActive(cfg, f, s, t); }
        hide Launched;
        if cfg.manualTick {
          StretchStops(cfg, f, s, t);
        } else {
          FillGood(cfg, f, look, aborted, t);
          StretchGoesOn(cfg, f, s, t, Fill(cfg, look, aborted, t));
        }
      }
    }
  }

  lemma RoundActive(cfg: Config, f: Frame, s: State, t: State)
    requires Launched(cfg, f, s, t) && t.executing != {}
    ensures Good(cfg, f, t) && Active(t) > 0
  {
    hide Good, Later;
    assert |t.executing| > 0;
  }

  lemma StopIgnored(cfg: Config, f: Frame, t: State)
    requires Good(cfg, f, t)
    ensures Good(cfg, f, t.(stop := true))
  {
  }

  lemma IdleStretch(cfg: Config, f: Frame, s: State, found: Found, st: seq<Status>)
    requires FrameOf(cfg, f) && Good(cfg, f, s) && found.candidates == []
    requires PassFrom(f.dag, Statuses(s.run.items), 0) == Some(st) && Finds(cfg.g, f.ids, s.run, st, found)
    ensures Stretch(cfg, f, s, s.(run := found.run))
  {
    FoundGood(cfg, f, s, found, st);
    if Active(s) == 0 { NothingFound(cfg, f, s, found, st); }
  }

  /** Ended of itself: nothing active, nothing to launch, and nobody asked it to stop. */
  predicate Ended(s: State) { s.phase == Exited(NothingLeft) && !s.stop }

  /** Nothing is under way, and the nodes are up to date. */
  predicate Closed(s: State) { s.executing == {} && s.run.nodes == SyncNodes(s.run.nodes, s.run.items) }

  ghost predicate Fine(cfg: Config, f: Frame, s: State) {
    && Good(cfg, f, s)
    && (s.phase == Exited(NothingLeft) ==> Closed(s))
    && (Ended(s) ==> AtRest(f, s))
  }

  lemma LeaveGood(cfg: Config, f: Frame, s: State, why: ExitReason)
    requires Good(cfg, f, s)
    ensures var t := Leave(s, why);
            && Good(cfg, f, t) && Later(f, s, t) && t.run.nodes == SyncNodes(t.run.nodes, t.run.items)
            && (AtRest(f, s) ==> AtRest(f, t))
  {
    SyncTwice(s.run.nodes, s.run.items);
    SyncKeepsShape(s.run, Leave(s, why).run.nodes, s.run.items);
    SamePlainRun(cfg.g, f.ids, f.itemKey, s.run, Leave(s, why).run);
    SyncedNodesFollow(s.run.nodes, s.run.items);
    FollowingUnderway(cfg, f.ids, s, Leave(s, why).run);
    hide Underway, Known, NodesOnly, SyncNodes, PlainGraph, NodesFollow;
  }

  lemma BodyGood(cfg: Config, f: Frame, look: Look, aborted: bool, s: State)
    requires FrameOf(cfg, f) && Looks(cfg, f, look) && Good(cfg, f, s) && s.phase.Racing?
    ensures Fine(cfg, f, Body(cfg, look, aborted, s)) && Later(f, s, Body(cfg, look, aborted, s))
  {
    hide Good, Later, Fill, AtRest, Looks, FrameOf, SyncNodes, Stretch, Closed;
    var s1 := if aborted then s.(stop := true) else s;
    AbortGood(cfg, f, s, s1);
    if s1.executed >= Limit(cfg) {
      LeaveGood(cfg, f, s1, LimitReached);
      LaterTransitive(f, s, s1, Leave(s1, LimitReached));
    } else {
      hide Fine, Leave;
      FillGood(cfg, f, look, aborted, s1);
      var s2 := Fill(cfg, look, aborted, s1);
      FilledGood(cfg, f, s1, s2);
      if Active(s2) == 0 { LaterTransitive(f, s, s1, Leave(s2, NothingLeft)); } else { LaterTransitive(f, s, s1, s2); }
    }
  }

  lemma AbortGood(cfg: Config, f: Frame, s: State, s1: State)
    requires FrameOf(cfg, f) && Good(cfg, f, s) && s.phase.Racing? && (s1 == s || s1 == s.(stop := true))
    ensures Good(cfg, f, s1) && Later(f, s, s1)
  {
  }

  lemma FilledGood(cfg: Config, f: Frame, s: State, s2: State)
    requires Stretch(cfg, f, s, s2) && s.phase.Racing?
    ensures Active(s2) > 0 ==> Fine(cfg, f, s2) && Later(f, s, s2)
    ensures !s2.phase.Crashed?
    ensures Active(s2) == 0 ==> Fine(cfg, f, Leave(s2, NothingLeft)) && Later(f, s, Leave(s2, NothingLeft))
  {
    hide Good, Later, AtRest, SyncNodes;
    assert s2.phase == s.phase;
    if Active(s2) == 0 {
      NothingActive(s2);
      LeaveGood(cfg, f, s2, NothingLeft);
      LaterTransitive(f, s, s2, Leave(s2, NothingLeft));
    }
  }

  lemma NothingActive(s: State)
    requires Active(s) == 0
    ensures s.executing == {} && s.settled == map[]
  {
    assert |s.executing| == 0 && |s.settled.Keys| == 0;
  }

  // ---------------------------------------------------------------- finishing

  /** A promotion changes statuses of unstarted targets to queued and nothing else. */
  ghost predicate PromotesItems(items: seq<ItemRun>, after: seq<ItemRun>, targets: set<Id>) {
    && |after| == |items|
    && forall k :: 0 <= k < |items| ==>
         || after[k] == items[k]
         || (after[k] == items[k].(status := Queued) && Unstarted(items[k].status) && items[k].nodeId in targets)
  }

  lemma {:induction false} PromoteOnly(g: Graph, run: Run, itemKey: string, outgoing: seq<Link>, targets: set<Id>)
    requires NodesOnly(g) && forall e :: e in outgoing ==> e.to in targets
    ensures var after := Promote(g, run, itemKey, outgoing);
            after == run.(items := after.items) && PromotesItems(run.items, after.items, targets)
    decreases |outgoing|
  {
    hide ItemIndex, PromoteGroup;
    if outgoing == [] {
    } else {
      NoRouting(g, outgoing[0].to);
      PromoteOnly(g, run, itemKey, outgoing[1..], targets);
      PromoteOnly(g, PromoteItem(run, outgoing[0].to, itemKey), itemKey, outgoing[1..], targets);
    }
  }

  lemma TargetsNotSkipped(cfg: Config, f: Frame, s: State, i: nat, k: nat)
    requires FrameOf(cfg, f) && Good(cfg, f, s) && i in s.executing && k < |f.ids| && f.dag.on[k]
    requires exists e :: e in Outgoing(cfg.g.definition.edges, f.ids[i]) && e.to == f.ids[k]
    ensures s.run.items[k].status != Skipped
  {
    assert HasEdge(cfg.g, f.ids[i], f.ids[k]);
    RunningSourceMeansNotSkipped(f.dag, f.ok, Statuses(s.run.items), i, k);
  }

  lemma PromotionGood(cfg: Config, f: Frame, s: State, i: nat, items: seq<ItemRun>, after: seq<ItemRun>)
    requires FrameOf(cfg, f) && Good(cfg, f, s) && i in s.executing
    requires |items| == |f.ids| && (forall k :: 0 <= k < |items| && k != i ==> items[k] == s.run.items[k])
    requires !Unstarted(items[i].status) && ItemNodeIds(items) == f.ids && Inv(f.dag, f.ok, Statuses(items))
    requires PromotesItems(items, after, set e | e in Outgoing(cfg.g.definition.edges, f.ids[i]) :: e.to)
    ensures Inv(f.dag, f.ok, Statuses(after)) && Evolves(f.dag, Statuses(items), Statuses(after))
  {
    forall k | 0 <= k < |items|
      ensures after[k].status == items[k].status
           || (after[k].status == Queued
               && (if f.dag.on[k] then items[k].status in {Blocked, Waiting, Queued} else Unstarted(items[k].status)))
    {
      if after[k] != items[k] && f.dag.on[k] {
        var e :| e in Outgoing(cfg.g.definition.edges, f.ids[i]) && e.to == items[k].nodeId;
        assert items[k].nodeId == f.ids[k];
        TargetsNotSkipped(cfg, f, s, i, k);
      }
    }
    PromotionKeepsInv(f.dag, f.ok, Statuses(items), Statuses(after));
  }

  lemma FinishedItems(cfg: Config, f: Frame, s: State, i: nat) returns (items: seq<ItemRun>)
    requires FrameOf(cfg, f) && Good(cfg, f, s) && i in s.ended
    ensures !Finish(cfg, s, i).phase.Crashed?
    ensures |items| == |f.ids| && (forall k :: 0 <= k < |items| && k != i ==> items[k] == s.run.items[k])
    ensures items[i].status == (if f.ok[i] then Success else Failed)
    ensures ItemNodeIds(items) == f.ids && PlainItems(items, f.itemKey) && Subjects(items) == Subjects(s.run.items)
    ensures Inv(f.dag, f.ok, Statuses(items)) && Evolves(f.dag, Statuses(s.run.items), Statuses(items))
    ensures Finish(cfg, s, i).run == s.run.(items := Finish(cfg, s, i).run.items)
    ensures PromotesItems(items, Finish(cfg, s, i).run.items, set e | e in Outgoing(cfg.g.definition.edges, f.ids[i]) :: e.to)
  {
    EndedFacts(cfg, f, s, i);
    hide Known, PlainGraph, MaxAttempts, Outgoing, NodeFits, Underway, Untried, Inv, FrameOf, Finish, PromotesItems, Good;
    var x, verdict := s.run.items[i], s.ended[i];
    var status := if verdict.Succeed? then Success else Failed;
    items := s.run.items[i := x.(status := status, route := if Enveloped(verdict) then None else x.route)];
    FinishPromotes(cfg, s, i, items);
    OneFinished(s.run.items, i, status, items, f.itemKey);
  }

  /** What is known of an item whose agent run is over. */
  lemma EndedFacts(cfg: Config, f: Frame, s: State, i: nat)
    requires FrameOf(cfg, f) && Good(cfg, f, s) && i in s.ended
    ensures i < |s.run.items| == |f.ids| == |f.ok| && s.run.items[i].nodeId == f.ids[i] && s.run.items[i].status == Running
    ensures f.ok[i] == s.ended[i].Succeed? && NodesOnly(cfg.g) && !s.phase.Crashed?
    ensures ItemNodeIds(s.run.items) == f.ids && PlainItems(s.run.items, f.itemKey)
    ensures var after := Statuses(s.run.items)[i := if f.ok[i] then Success else Failed];
            Inv(f.dag, f.ok, after) && Evolves(f.dag, Statuses(s.run.items), after)
  {
    EnabledAt(cfg, f, s, i);
    PlainIsNodesOnly(cfg.g, f.ids);
    EndKeepsInv(f.dag, f.rank, f.ok, Statuses(s.run.items), i);
    hide Known, PlainGraph, MaxAttempts, NodeFits, Inv, Evolves;
  }

  lemma OneFinished(items: seq<ItemRun>, i: nat, status: Status, after: seq<ItemRun>, itemKey: string)
    requires i < |items| && |after| == |items| && (forall k :: 0 <= k < |items| && k != i ==> after[k] == items[k])
    requires after[i] == items[i].(status := status, route := after[i].route) && PlainItems(items, itemKey)
    ensures Statuses(after) == Statuses(items)[i := status] && Subjects(after) == Subjects(items)
    ensures ItemNodeIds(after) == ItemNodeIds(items) && PlainItems(after, itemKey)
  {
  }

  lemma PlainIsNodesOnly(g: Graph, ids: seq<Id>)
    requires PlainGraph(g, ids)
    ensures NodesOnly(g)
  {
  }

  lemma FinishPromotes(cfg: Config, s: State, i: nat, items: seq<ItemRun>)
    requires NodesOnly(cfg.g) && i in s.ended && i < |s.run.items| && s.run.items[i].status == Running && !s.phase.Crashed?
    requires var x := s.run.items[i];
             items == s.run.items[i := x.(status := if s.ended[i].Succeed? then Success else Failed,
                                          route := if Enveloped(s.ended[i]) then None else x.route)]
    ensures !Finish(cfg, s, i).phase.Crashed?
    ensures Finish(cfg, s, i).run == s.run.(items := Finish(cfg, s, i).run.items)
    ensures PromotesItems(items, Finish(cfg, s, i).run.items,
                          set e | e in Outgoing(cfg.g.definition.edges, s.run.items[i].nodeId) :: e.to)
  {
    hide Promote, Outgoing, NodesOnly;
    var outgoing := Outgoing(cfg.g.definition.edges, s.run.items[i].nodeId);
    PromoteOnly(cfg.g, s.run.(items := items), s.run.items[i].itemKey, outgoing, set e | e in outgoing :: e.to);
  }

  /** Finishing changes one item's own status and promotes; nothing else starts or stops. */
  lemma FinishRunning(f: Frame, before: seq<ItemRun>, items: seq<ItemRun>, after: seq<ItemRun>, targets: set<Id>, i: nat, k: nat)
    requires |before| == |items| && i < |items| && k < |items| && (k != i ==> items[k] == before[k])
    requires items[i].status in {Success, Failed} && before[i].status == Running && PromotesItems(items, after, targets)
    requires Subjects(items) == Subjects(before)
    ensures after[k].status == Running <==> before[k].status == Running && k != i
    ensures Unstarted(after[k].status) ==>
              Unstarted(before[k].status) && after[k].attempt == before[k].attempt && after[k].nodeId == before[k].nodeId
  {
  }

  lemma FinishGood(cfg: Config, f: Frame, s: State, i: nat)
    requires FrameOf(cfg, f) && Good(cfg, f, s) && i in s.ended
    ensures Good(cfg, f, Finish(cfg, s, i)) && Later(f, s, Finish(cfg, s, i))
    ensures Finish(cfg, s, i).phase == s.phase
  {
    hide NodeFits, Known, PlainGraph, MaxAttempts, Inv, Finish, PromotesItems, Untried, Outgoing, FrameOf;
    var t := Finish(cfg, s, i);
    var items := FinishedItems(cfg, f, s, i);
    PromotionGood(cfg, f, s, i, items, t.run.items);
    FinishFields(cfg, s, i);
    FinishShape(cfg, f, s, t, items, i);
    FinishUnderway(cfg, f.ids, s, t, i);
    FinishStatuses(cfg, f, s, t, items, i);
    hide Underway, PlainRun;
  }

  lemma FinishShape(cfg: Config, f: Frame, s: State, t: State, items: seq<ItemRun>, i: nat)
    requires FrameOf(cfg, f) && Good(cfg, f, s) && i in s.ended
    requires Subjects(items) == Subjects(s.run.items) && PlainItems(items, f.itemKey)
    requires t.run == s.run.(items := t.run.items)
    requires PromotesItems(items, t.run.items, set e | e in Outgoing(cfg.g.definition.edges, f.ids[i]) :: e.to)
    ensures PlainRun(cfg.g, f.ids, f.itemKey, t.run)
  {
    assert Subjects(t.run.items) == Subjects(items);
    SamePlainRun(cfg.g, f.ids, f.itemKey, s.run, t.run);
    hide *;
  }

  lemma FinishUnderway(cfg: Config, ids: seq<Id>, s: State, t: State, i: nat)
    requires Underway(cfg, ids, s) && i in s.ended && t.run.nodes == s.run.nodes
    requires t == s.(run := t.run, executing := s.executing - {i}, begun := s.begun - {i}, ended := s.ended - {i}, settled := t.settled)
    ensures Underway(cfg, ids, t)
  {
    hide NodeFits;
  }

  lemma FinishStatuses(cfg: Config, f: Frame, s: State, t: State, items: seq<ItemRun>, i: nat)
    requires FrameOf(cfg, f) && Good(cfg, f, s) && i in s.ended && t.executing == s.executing - {i}
    requires |items| == |f.ids| && (forall k :: 0 <= k < |items| && k != i ==> items[k] == s.run.items[k])
    requires items[i].status == (if f.ok[i] then Success else Failed)
    requires PromotesItems(items, t.run.items, set e | e in Outgoing(cfg.g.definition.edges, f.ids[i]) :: e.to)
    requires Subjects(items) == Subjects(s.run.items)
    ensures forall k :: 0 <= k < |f.ids| ==> (t.run.items[k].status == Running <==> k in t.executing)
    ensures Untried(cfg.g, t.run.items)
  {
    var targets := set e | e in Outgoing(cfg.g.definition.edges, f.ids[i]) :: e.to;
    forall k | 0 <= k < |f.ids|
      ensures t.run.items[k].status == Running <==> k in t.executing
      ensures Unstarted(t.run.items[k].status) ==> t.run.items[k].attempt < MaxAttempts(cfg.g, t.run.items[k].nodeId)
    {
      FinishRunning(f, s.run.items, items, t.run.items, targets, i, k);
    }
  }

  // ---------------------------------------------------------------- the node of a running item

  /** Marking one node leaves the first node of any other id as it was. */
  lemma OtherNodes(nodes: seq<NodeRun>, k: nat, status: Status, id: Id)
    requires k < |nodes| && nodes[k].id != id
    ensures var after := nodes[k := nodes[k].(status := status)];
            && NodeIndex(after, id) == NodeIndex(nodes, id)
            && (NodeIndex(nodes, id) < |nodes| ==> after[NodeIndex(nodes, id)] == nodes[NodeIndex(nodes, id)])
  {
  }

  lemma OtherFits(run: Run, id: Id, status: Status, other: Id, begun: bool)
    requires MarkNode(run, id, status).Some? && other != id && NodeFits(run.nodes, other, begun)
    ensures NodeFits(MarkNode(run, id, status).value.nodes, other, begun)
  {
    hide TransitionStatus;
    var k := NodeIndex(run.nodes, id);
    if k < |run.nodes| { OtherNodes(run.nodes, k, status, other); }
    hide NodeIndex;
  }

  /** The node of a running item can begin and end. */
  lemma NodeCan(run: Run, id: Id, begun: bool)
    requires NodeFits(run.nodes, id, begun)
    ensures !begun ==> MarkNode(run, id, Running).Some? && NodeFits(MarkNode(run, id, Running).value.nodes, id, true)
    ensures MarkNode(run, id, Failed).Some? && (begun ==> MarkNode(run, id, Success).Some?)
  {
    var k := NodeIndex(run.nodes, id);
    if k < |run.nodes| { SameIndex(run.nodes, k, Running, id); }
    hide NodeIndex;
  }

  lemma SameIndex(nodes: seq<NodeRun>, k: nat, status: Status, id: Id)
    requires k == NodeIndex(nodes, id) < |nodes|
    ensures NodeIndex(nodes[k := nodes[k].(status := status)], id) == k
  {
    var after := nodes[k := nodes[k].(status := status)];
    assert after[k].id == id && forall x :: 0 <= x < k ==> after[x] == nodes[x];
  }

  lemma MarkedUnderway(cfg: Config, ids: seq<Id>, s: State, t: State, i: nat, status: Status)
    requires Underway(cfg, ids, s) && Distinct(ids) && i in s.executing && i !in s.ended
    requires MarkNode(s.run, ids[i], status) == Some(t.run) && t.executing == s.executing
    requires if status == Running then t.begun == s.begun + {i} && t.ended == s.ended && NodeFits(t.run.nodes, ids[i], true)
             else t.begun == s.begun && t.ended == s.ended[i := VerdictOf(cfg, ids[i])]
    ensures Underway(cfg, ids, t)
  {
    hide MarkNode, NodeFits;
    forall j | j in t.executing && j !in t.ended ensures NodeFits(t.run.nodes, ids[j], j in t.begun) {
      if j != i { OtherFits(s.run, ids[i], status, ids[j], j in s.begun); }
    }
  }

  /** A change of node statuses and of what is under way keeps the rest of the invariant. */
  lemma MarkedGood(cfg: Config, f: Frame, s: State, t: State)
    requires FrameOf(cfg, f) && Good(cfg, f, s) && Underway(cfg, f.ids, t)
    requires t.run == s.run.(nodes := t.run.nodes) && NodeRunIds(t.run.nodes) == NodeRunIds(s.run.nodes)
    requires t.executing == s.executing && t.phase == s.phase
    ensures Good(cfg, f, t) && Later(f, s, t)
  {
    SamePlainRun(cfg.g, f.ids, f.itemKey, s.run, t.run);
  }

  lemma BeginGood(cfg: Config, f: Frame, s: State, i: nat)
    requires FrameOf(cfg, f) && Good(cfg, f, s) && Allowed(cfg, s, Begin(i))
    ensures var t := Step(cfg, s, Begin(i)); Good(cfg, f, t) && Later(f, s, t) && t.phase == s.phase
  {
    var t := Step(cfg, s, Begin(i));
    EnabledAt(cfg, f, s, i);
    NodeCan(s.run, f.ids[i], false);
    MarkKeepsShape(s.run, f.ids[i], Running);
    MarkedUnderway(cfg, f.ids, s, t, i, Running);
    hide Underway, MarkNode, PlainRun, NodeFits, Inv;
    MarkedGood(cfg, f, s, t);
  }

  /** The agent run ends with the verdict of its node: nothing raises, not even where a raise would be caught. */
  lemma EndGood(cfg: Config, f: Frame, s: State, i: nat)
    requires FrameOf(cfg, f) && Good(cfg, f, s) && Allowed(cfg, s, End(i))
    ensures var t := Step(cfg, s, End(i)); Good(cfg, f, t) && Later(f, s, t) && t.phase == s.phase
  {
    var t := Step(cfg, s, End(i));
    EnabledAt(cfg, f, s, i);
    NodeCan(s.run, f.ids[i], i in s.begun);
    var verdict := VerdictOf(cfg, f.ids[i]);
    var status := if verdict.Succeed? then Success else Failed;
    MarkKeepsShape(s.run, f.ids[i], status);
    assert t == s.(run := MarkNode(s.run, f.ids[i], status).value, ended := s.ended[i := verdict]);
    MarkedUnderway(cfg, f.ids, s, t, i, status);
    hide Underway, MarkNode, PlainRun, NodeFits, Inv;
    MarkedGood(cfg, f, s, t);
  }

  lemma CollectGood(cfg: Config, f: Frame, s: State, seen: nat, gone: set<nat>, aborted: bool)
    requires Good(cfg, f, s) && seen in gone && gone <= s.settled.Keys
    ensures Good(cfg, f, Collect(s, seen, gone, aborted)) && Collect(s, seen, gone, aborted).run == s.run
  {
  }

  lemma ResumeGood(cfg: Config, f: Frame, s: State, seen: nat, gone: set<nat>, now: int, aborted: bool)
    requires FrameOf(cfg, f) && Good(cfg, f, s) && Allowed(cfg, s, Resume(seen, gone, now, aborted))
    ensures var t := Step(cfg, s, Resume(seen, gone, now, aborted)); Fine(cfg, f, t) && Later(f, s, t)
  {
    var s1 := Collect(s, seen, gone, aborted);
    CollectGood(cfg, f, s, seen, gone, aborted);
    if !(cfg.manualTick && s1.stop) {
      LookAtLooks(cfg, f, now);
      BodyGood(cfg, f, LookAt(cfg, now), aborted, s1);
    }
  }

  lemma AllDoneGood(cfg: Config, f: Frame, s: State)
    requires Good(cfg, f, s) && Allowed(cfg, s, AllDone)
    ensures Fine(cfg, f, Step(cfg, s, AllDone)) && Later(f, s, Step(cfg, s, AllDone))
  {
    var s1 := s.(settled := map[]);
    assert Good(cfg, f, s1);
    LeaveGood(cfg, f, s1, TickDone);
  }

  lemma StepGood(cfg: Config, f: Frame, s: State, input: Input)
    requires FrameOf(cfg, f) && Fine(cfg, f, s) && Allowed(cfg, s, input)
    ensures Fine(cfg, f, Step(cfg, s, input)) && Later(f, s, Step(cfg, s, input))
  {
    match input
    case Begin(i) => BeginGood(cfg, f, s, i);
    case End(i) => EndGood(cfg, f, s, i);
    case Done(i) => FinishGood(cfg, f, s, i);
    case Resume(seen, gone, now, aborted) => ResumeGood(cfg, f, s, seen, gone, now, aborted);
    case AllDone => AllDoneGood(cfg, f, s);
  }

  // ---------------------------------------------------------------- whole drains

  /** A freshly seeded run: nothing has started, and only disabled nodes may stand as skipped. */
  ghost predicate FreshRun(g: Graph, itemKey: string, run: Run) {
    && PlainRun(g, ItemNodeIds(run.items), itemKey, run)
    && Fresh(DagOf(g, ItemNodeIds(run.items)), Statuses(run.items))
    && Untried(g, run.items)
  }

  /** `rank` puts the source of every edge below its target: the workflow has no cycle. */
  ghost predicate RankedBy(g: Graph, rank: map<Id, nat>) {
    forall e :: e in g.definition.edges ==> e.from in rank && e.to in rank && rank[e.from] < rank[e.to]
  }

  function RankOf(rank: map<Id, nat>, id: Id): nat { if id in rank then rank[id] else 0 }

  ghost function FrameFor(cfg: Config, itemKey: string, run: Run, rank: map<Id, nat>): Frame {
    var ids := ItemNodeIds(run.items);
    var ranks := seq(|ids|, i requires 0 <= i < |ids| => RankOf(rank, ids[i]));
    Frame(ids, NodeRunIds(run.nodes), itemKey, DagOf(cfg.g, ids), ranks, Oks(cfg, ids))
  }

  /**
   * A run at which a drain can start: nothing runs, every outcome is the one that the verdict of its node
   * gives and its dependencies allow, and what has not started has an attempt left.
   */
  ghost predicate Ready(cfg: Config, itemKey: string, run: Run) {
    var ids := ItemNodeIds(run.items);
    && PlainRun(cfg.g, ids, itemKey, run)
    && Inv(DagOf(cfg.g, ids), Oks(cfg, ids), Statuses(run.items))
    && (forall x :: x in run.items ==> x.status != Running)
    && Untried(cfg.g, run.items)
  }

  lemma FreshIsReady(cfg: Config, itemKey: string, run: Run)
    requires FreshRun(cfg.g, itemKey, run)
    ensures Ready(cfg, itemKey, run)
  {
    var ids := ItemNodeIds(run.items);
    FreshIsInv(DagOf(cfg.g, ids), Oks(cfg, ids), Statuses(run.items));
    forall x | x in run.items ensures x.status != Running {
      var i :| 0 <= i < |run.items| && run.items[i] == x;
      assert Statuses(run.items)[i] in {Queued, Blocked, Waiting, Skipped};
    }
  }

  lemma FrameIsFrame(cfg: Config, itemKey: string, run: Run, rank: map<Id, nat>)
    requires PlainGraph(cfg.g, ItemNodeIds(run.items)) && RankedBy(cfg.g, rank)
    ensures FrameOf(cfg, FrameFor(cfg, itemKey, run, rank))
  {
    var f := FrameFor(cfg, itemKey, run, rank);
    forall i, j | 0 <= i < |f.dag.on| && j in f.dag.sources[i] ensures f.rank[j] < f.rank[i] {
      assert HasEdge(cfg.g, f.ids[j], f.ids[i]);
    }
  }

  lemma InitialGood(cfg: Config, itemKey: string, run: Run, rank: map<Id, nat>)
    requires Ready(cfg, itemKey, run)
    ensures Good(cfg, FrameFor(cfg, itemKey, run, rank), Initial(run))
  {
  }

  lemma StartFine(cfg: Config, itemKey: string, run: Run, rank: map<Id, nat>, now: int, aborted: bool)
    requires Ready(cfg, itemKey, run) && RankedBy(cfg.g, rank)
    ensures var f := FrameFor(cfg, itemKey, run, rank);
            Fine(cfg, f, Start(cfg, now, aborted, run)) && Later(f, Initial(run), Start(cfg, now, aborted, run))
  {
    var f := FrameFor(cfg, itemKey, run, rank);
    FrameIsFrame(cfg, itemKey, run, rank);
    InitialGood(cfg, itemKey, run, rank);
    LookAtLooks(cfg, f, now);
    hide FrameFor, Ready, Good, Fine, Later, Looks, LookAt, FrameOf, RankedBy;
    BodyGood(cfg, f, LookAt(cfg, now), aborted, Initial(run));
  }

  lemma NextGood(cfg: Config, f: Frame, a: State, b: State)
    requires FrameOf(cfg, f) && Fine(cfg, f, a) && Next(cfg, a, b)
    ensures Fine(cfg, f, b) && Later(f, a, b)
  {
    var input :| Allowed(cfg, a, input) && b == Step(cfg, a, input);
    StepGood(cfg, f, a, input);
  }

  lemma DrainFine(cfg: Config, itemKey: string, run: Run, rank: map<Id, nat>, states: seq<State>)
    requires Ready(cfg, itemKey, run) && RankedBy(cfg.g, rank) && IsDrain(cfg, run, states)
    ensures forall k :: 0 <= k < |states| ==> Fine(cfg, FrameFor(cfg, itemKey, run, rank), states[k])
    ensures forall a, b :: 0 <= a <= b < |states| ==> Later(FrameFor(cfg, itemKey, run, rank), states[a], states[b])
    ensures forall a :: 0 <= a < |states| ==> Later(FrameFor(cfg, itemKey, run, rank), Initial(run), states[a])
  {
    var f := FrameFor(cfg, itemKey, run, rank);
    FrameIsFrame(cfg, itemKey, run, rank);
    hide FrameFor, FrameOf, RankedBy, Ready, Fine, Later, Start, NodesOnly;
    var now, aborted :| states[0] == Start(cfg, now, aborted, run);
    StartFine(cfg, itemKey, run, rank, now, aborted);
    var next, inv := (a: State, b: State) => Next(cfg, a, b), (s: State) => Fine(cfg, f, s);
    forall a, b | inv(a) && next(a, b) ensures inv(b) { NextGood(cfg, f, a, b); }
    Invariance(states, next, inv);
    forall k | 0 <= k < |states| ensures Fine(cfg, f, states[k]) { assert inv(states[k]); }
    forall a, b | 0 <= a <= b < |states| ensures Later(f, states[a], states[b]) { LastsAlong(cfg, f, states, a, b); }
    forall a | 0 <= a < |states| ensures Later(f, Initial(run), states[a]) {
      LaterTransitive(f, Initial(run), states[0], states[a]);
    }
  }

  lemma LastsAlong(cfg: Config, f: Frame, states: seq<State>, a: nat, b: nat)
    requires FrameOf(cfg, f) && a <= b < |states| && Linked(states, (x: State, y: State) => Next(cfg, x, y))
    requires Fine(cfg, f, states[0])
    ensures Later(f, states[a], states[b])
  {
    hide FrameOf, Next;
    var next, inv, rel :=
      (x: State, y: State) => Next(cfg, x, y), (s: State) => Fine(cfg, f, s), (x: State, y: State) => Later(f, x, y);
    forall s | inv(s) ensures rel(s, s) { LaterReflexive(cfg, f, s); }
    hide Fine, Later;
    forall x, y | inv(x) && next(x, y) ensures inv(y) && rel(x, y) { NextGood(cfg, f, x, y); }
    forall x, y, z | rel(x, y) && rel(y, z) ensures rel(x, z) { LaterTransitive(f, x, y, z); }
    Persistence(states, next, inv, rel, a, b);
  }

  lemma LaterReflexive(cfg: Config, f: Frame, s: State)
    requires Fine(cfg, f, s)
    ensures Later(f, s, s)
  {
  }
}
