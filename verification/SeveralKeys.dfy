/** Runs with several items per node: the items share their node's status, and that is where drains raise. */
module SeveralKeys {
  import opened Common
  import opened Digraph
  import opened Workflow
  import opened WorkflowGraph
  import opened Validate
  import opened StateMachine
  import opened RunModel
  import opened Retry
  import opened Readiness
  import opened LaunchSafety
  import opened Runs
  import opened Scheduling
  import opened Drain
  import opened DrainTasks
  import opened ItemExecutor
  import opened PlainRuns
  import opened DrainOutcome
  import opened DrainResults
  import opened StuckDrains
  import opened PlainWorkflows

  /** Whatever the settings, verdicts and interleaving, no drain of the run makes a transition raise. */
  ghost predicate NeverRaises(g: Graph, run: Run) {
    forall cfg: Config, states: seq<State> | cfg.g == g && IsDrain(cfg, run, states) ::
      forall k :: 0 <= k < |states| ==> !states[k].phase.Crashed?
  }

  // ---------------------------------------------------------------- two items of one node raise

  /** Every dependency of the node is one on a disabled node, which counts as satisfied. */
  ghost predicate Unhindered(g: Graph, id: Id) {
    && Enabled(g, id)
    && forall e :: e in Incoming(g.definition.edges, id) ==> e.when.None? && !Cross(g, e) && !Enabled(g, e.from)
  }

  /** Two items of one node that the first look queues. */
  ghost predicate Rivals(g: Graph, items: seq<ItemRun>, i: nat, j: nat) {
    && i < |items| && j < |items| && i != j && items[i].nodeId == items[j].nodeId
    && Unhindered(g, items[i].nodeId)
    && Untouched(items[i]) && Untouched(items[j])
  }

  predicate Untouched(x: ItemRun) { x.status in {Queued, Blocked} && x.attempt == 0 && x.wakeAt == NoWake }

  lemma UnhinderedIsQueued(g: Graph, items: seq<ItemRun>, groupItems: seq<GroupItemRun>, x: ItemRun)
    requires NodesOnly(g) && Unhindered(g, x.nodeId) && Untouched(x)
    ensures ReadyItem(g, items, groupItems, x) == Some(x.(status := Queued))
  {
    NoRouting(g, x.nodeId);
    var incoming := Incoming(g.definition.edges, x.nodeId);
    forall e | e in incoming ensures Satisfied(g, items, groupItems, x.itemKey, e) { NoRouting(g, e.from); }
    hide Cross, Enabled, IsGroup, NodesOnly;
    if incoming != [] { assert incoming[0] in incoming; }
  }

  /** After a look that does not raise both are queued and among the candidates. */
  lemma RivalsFound(cfg: Config, run: Run, i: nat, j: nat, found: Found)
    requires NodesOnly(cfg.g) && Known(run) && Rivals(cfg.g, run.items, i, j) && LookAt(cfg, 0)(run) == Some(found)
    ensures Handover(cfg, run, found) && Known(found.run)
    ensures NodeItem(i) in found.candidates && NodeItem(j) in found.candidates && |found.candidates| >= 2
    ensures |found.run.items| == |run.items|
    ensures found.run.items[i] == run.items[i].(status := Queued) && found.run.items[j] == run.items[j].(status := Queued)
  {
    LookIsFaithful(cfg, 0);
    assert Handover(cfg, run, found);
    KnownAfter(run, found.run);
    EnsureKeepsItems(cfg.g, cfg.itemKeys, run);
    PassParts(cfg.g, cfg.itemKeys, 0, run, found.run);
    var groupItems := EnsureItems(cfg.g, cfg.itemKeys, run).groupItems;
    hide LookAt, ReadinessPass, EnsureItems, Known, Faithful;
    TurnQueues(cfg.g, groupItems, run.items, found.run.items, i);
    TurnQueues(cfg.g, groupItems, run.items, found.run.items, j);
    BothPicked(cfg, run, found, i, j);
  }

  lemma TurnQueues(g: Graph, groupItems: seq<GroupItemRun>, before: seq<ItemRun>, after: seq<ItemRun>, i: nat)
    requires NodesOnly(g) && ReadyItems(g, groupItems, before) == Some(after)
    requires i < |before| && Unhindered(g, before[i].nodeId) && Untouched(before[i])
    ensures |after| == |before| && after[i] == before[i].(status := Queued)
  {
    hide NodesOnly, Unhindered, Untouched, ReadyItem, ReadyItems;
    PassTurns(g, groupItems, before, after);
    UnhinderedIsQueued(g, AtTurn(before, after, i), groupItems, before[i]);
  }

  lemma BothPicked(cfg: Config, run: Run, found: Found, i: nat, j: nat)
    requires NodesOnly(cfg.g) && Known(found.run) && found.candidates == Candidates(cfg.g, found.run)
    requires i < |found.run.items| && j < |found.run.items| && i != j
    requires forall k :: k in {i, j} ==> found.run.items[k].status == Queued && Enabled(cfg.g, found.run.items[k].nodeId)
    ensures NodeItem(i) in found.candidates && NodeItem(j) in found.candidates && |found.candidates| >= 2
  {
    hide Candidates;
    QueuedAreCandidates(cfg.g, ItemNodeIds(found.run.items), found.run, i);
    QueuedAreCandidates(cfg.g, ItemNodeIds(found.run.items), found.run, j);
    TwoMembers(found.candidates, NodeItem(i), NodeItem(j));
  }

  lemma TwoMembers<T(!new)>(s: seq<T>, a: T, b: T)
    requires a in s && b in s && a != b
    ensures |s| >= 2
  {
    var i :| 0 <= i < |s| && s[i] == a;
    var j :| 0 <= j < |s| && s[j] == b;
  }

  /** A launched item with an attempt left is under way, and stays so while the others are launched. */
  lemma {:induction false} LaunchedGoOn(cfg: Config, s: State, batch: seq<Candidate>, i: nat)
    requires FreshBatch(cfg.g, s.run.items, batch) && i < |s.run.items|
    requires i in s.executing || (NodeItem(i) in batch && s.run.items[i].attempt == 0)
    ensures i in LaunchAll(cfg, s, batch).executing
    decreases |batch|
  {
    if batch == [] {
    } else {
      assert batch[0] in batch;
      var k := batch[0].index;
      var t := Launch(cfg, s, k);
      TailFresh(cfg.g, s.run.items, t.run.items, batch);
      assert batch == [batch[0]] + batch[1..];
      hide FreshBatch, Launch;
      if batch[0] == NodeItem(i) {
        LaunchedNow(cfg, s, i);
      } else {
        LaunchedElsewhere(cfg, s, k, i);
      }
      LaunchedGoOn(cfg, t, batch[1..], i);
    }
  }

  lemma LaunchedNow(cfg: Config, s: State, i: nat)
    requires i < |s.run.items| && (i in s.executing || s.run.items[i].attempt == 0)
    ensures i in Launch(cfg, s, i).executing && |Launch(cfg, s, i).run.items| == |s.run.items|
  {
  }

  lemma LaunchedElsewhere(cfg: Config, s: State, k: nat, i: nat)
    requires k < |s.run.items| && i < |s.run.items|
    ensures var t := Launch(cfg, s, k);
            |t.run.items| == |s.run.items| && s.executing <= t.executing && (k != i ==> t.run.items[i] == s.run.items[i])
  {
  }

  /** Two tasks of one node are under way, and neither has begun. */
  ghost predicate BothUnder(cfg: Config, s: State, i: nat, j: nat) {
    && Known(s.run)
    && i in s.executing && j in s.executing && i != j && i < |s.run.items| && j < |s.run.items|
    && s.run.items[i].nodeId == s.run.items[j].nodeId
    && s.begun == {} && s.ended == map[] && !s.phase.Crashed?
    && VerdictOf(cfg, s.run.items[i].nodeId) == Succeed
  }

  lemma NodeExists(run: Run, i: nat)
    requires Known(run) && i < |run.items|
    ensures NodeStatus(run, run.items[i].nodeId).Some?
  {
    assert Subjects(run.items)[i].0 in NodeRunIds(run.nodes);
    var k :| 0 <= k < |run.nodes| && NodeRunIds(run.nodes)[k] == run.items[i].nodeId;
    assert run.nodes[k].id == run.items[i].nodeId;
  }

  /** The first begins and ends; then the second cannot begin, because their node has succeeded. */
  lemma SecondRaises(cfg: Config, s: State, i: nat, j: nat) returns (states: seq<State>)
    requires BothUnder(cfg, s, i, j)
    ensures Linked(states, (a: State, b: State) => Next(cfg, a, b)) && states[0] == s
    ensures states[|states| - 1].phase.Crashed?
  {
    var id := s.run.items[i].nodeId;
    NodeExists(s.run, i);
    hide Known, NodeIndex;
    var s1 := Step(cfg, s, Begin(i));
    StepIsNext(cfg, s, Begin(i));
    BeginRaisesExactly(cfg, s, i);
    assert Linked([s1], (a: State, b: State) => Next(cfg, a, b));
    if s1.phase.Crashed? {
      LinkedCons(cfg, s, [s1]);
      states := [s] + [s1];
    } else {
      MarkedStatus(s.run, id, Running);
      var rest := EndThenRaise(cfg, s1, i, j);
      LinkedCons(cfg, s, rest);
      states := [s] + rest;
    }
  }

  lemma EndThenRaise(cfg: Config, s: State, i: nat, j: nat) returns (states: seq<State>)
    requires i in s.begun && i in s.executing && j in s.executing && i != j && i < |s.run.items| && j < |s.run.items|
    requires j !in s.begun && s.ended == map[] && !s.phase.Crashed?
    requires s.run.items[i].nodeId == s.run.items[j].nodeId && VerdictOf(cfg, s.run.items[i].nodeId) == Succeed
    requires NodeStatus(s.run, s.run.items[i].nodeId) == Some(Running)
    ensures Linked(states, (a: State, b: State) => Next(cfg, a, b)) && states[0] == s
    ensures states[|states| - 1].phase.Crashed?
  {
    var id := s.run.items[i].nodeId;
    assert MarkNode(s.run, id, Success).Some?;
    MarkedStatus(s.run, id, Success);
    hide NodeStatus, MarkNode;
    var s1 := Step(cfg, s, End(i));
    StepIsNext(cfg, s, End(i));
    var s2 := Step(cfg, s1, Begin(j));
    StepIsNext(cfg, s1, Begin(j));
    BeginRaisesExactly(cfg, s1, j);
    assert Linked([s2], (a: State, b: State) => Next(cfg, a, b));
    LinkedCons(cfg, s1, [s2]);
    LinkedCons(cfg, s, [s1] + [s2]);
    states := [s] + ([s1] + [s2]);
  }

  /** The settings under which the first round launches all that the first look finds, and every agent succeeds. */
  function Wide(g: Graph, itemKeys: seq<string>, n: nat): Config { Config(g, Roomy(n), itemKeys, false, map[]) }

  lemma WideStart(cfg: Config, run: Run, i: nat, j: nat, found: Found)
    requires NodesOnly(cfg.g) && Known(run) && Rivals(cfg.g, run.items, i, j) && LookAt(cfg, 0)(run) == Some(found)
    requires cfg == Wide(cfg.g, cfg.itemKeys, |found.candidates|)
    ensures BothUnder(cfg, Start(cfg, 0, false, run), i, j)
  {
    RivalsFound(cfg, run, i, j, found);
    var s := Initial(run).(run := found.run);
    hide LookAt, Known, Candidates;
    FirstRoundFills(cfg, run, found);
    RoundTakesAll(cfg, run, found);
    FullRoundWaits(cfg, LookAt(cfg, 0), run, found);
    LaunchedGoOn(cfg, s, found.candidates, i);
    LaunchedGoOn(cfg, s, found.candidates, j);
    LaunchesCount(cfg, s, found.candidates);
    RoundKeepsSubjects(found.run, LaunchAll(cfg, s, found.candidates).run, i, j);
    hide LaunchAll, Round, Body, Rivals, FreshBatch;
  }

  lemma RoundKeepsSubjects(a: Run, b: Run, i: nat, j: nat)
    requires Known(a) && SameShape(a, b) && i < |a.items| && j < |a.items|
    ensures Known(b) && |b.items| == |a.items|
    ensures b.items[i].nodeId == a.items[i].nodeId && b.items[j].nodeId == a.items[j].nodeId
  {
    KnownAfter(a, b);
    assert Subjects(b.items)[i] == Subjects(a.items)[i] && Subjects(b.items)[j] == Subjects(a.items)[j];
  }

  lemma RivalsRaise(g: Graph, itemKeys: seq<string>, run: Run, i: nat, j: nat)
    requires NodesOnly(g) && Known(run) && Rivals(g, run.items, i, j)
    ensures !NeverRaises(g, run)
  {
    hide Known, Rivals, NodesOnly, LookAt, BothUnder;
    var base := Wide(g, itemKeys, 1);
    var look := LookAt(base, 0);
    if look(run).None? {
      RaisesAtOnce(base, run);
    } else {
      var found := look(run).value;
      var cfg := base.(scheduler := Roomy(|found.candidates|));
      SameLook(base, cfg.scheduler, run);
      WideStart(cfg, run, i, j, found);
      var states := SecondRaises(cfg, Start(cfg, 0, false, run), i, j);
      StatesRaise(cfg, run, states);
    }
  }

  lemma RaisesAtOnce(cfg: Config, run: Run)
    requires NodesOnly(cfg.g) && LookAt(cfg, 0)(run).None? && Limit(cfg) > 0
    ensures !NeverRaises(cfg.g, run)
  {
    hide LookAt, NodesOnly;
    var s := Start(cfg, 0, false, run);
    assert s.phase.Crashed?;
    StatesRaise(cfg, run, [s]);
  }

  lemma StatesRaise(cfg: Config, run: Run, states: seq<State>)
    requires NodesOnly(cfg.g) && Linked(states, (a: State, b: State) => Next(cfg, a, b))
    requires states[0] == Start(cfg, 0, false, run) && states[|states| - 1].phase.Crashed?
    ensures !NeverRaises(cfg.g, run)
  {
    hide NodesOnly, Next, Start;
    assert IsDrain(cfg, run, states);
  }

  // ---------------------------------------------------------------- finding two such items

  /** An enabled node of the lowest rank: whatever it depends on is disabled. */
  lemma {:induction false} LowestEnabled(g: Graph, ids: seq<Id>, rank: map<Id, nat>) returns (id: Id)
    requires exists x :: x in ids && Enabled(g, x)
    ensures id in ids && Enabled(g, id)
    ensures forall x :: x in ids && Enabled(g, x) ==> RankOf(rank, id) <= RankOf(rank, x)
    decreases |ids|
  {
    hide Enabled, RankOf;
    assert ids == [ids[0]] + ids[1..];
    if x :| x in ids[1..] && Enabled(g, x) {
      id := LowestEnabled(g, ids[1..], rank);
      if Enabled(g, ids[0]) && RankOf(rank, ids[0]) < RankOf(rank, id) { id := ids[0]; }
    } else {
      id := ids[0];
    }
  }

  lemma LowestIsUnhindered(g: Graph, ids: seq<Id>, rank: map<Id, nat>) returns (id: Id)
    requires PlainGraph(g, ids) && RankedBy(g, rank) && exists x :: x in ids && Enabled(g, x)
    ensures id in ids && Unhindered(g, id)
  {
    id := LowestEnabled(g, ids, rank);
    hide Enabled, Cross, NodesOnly, Distinct;
    forall e | e in Incoming(g.definition.edges, id) ensures e.when.None? && !Cross(g, e) && !Enabled(g, e.from) {
      assert e in g.definition.edges && e.to == id;
    }
  }

  /** The seeds of one node stand side by side. */
  lemma {:induction false} SeededTwice(g: Graph, ids: seq<Id>, keys: seq<string>, id: Id) returns (i: nat)
    requires id in ids && |keys| >= 2
    ensures var items := SeedItems(g, ids, keys);
            i + 1 < |items| && items[i] == FreshItem(g, id, keys[0]) && items[i + 1] == FreshItem(g, id, keys[1])
    decreases |ids|
  {
    hide FreshItem;
    var first := SeedForNode(g, ids[0], keys);
    var others := SeedForNode(g, ids[0], keys[1..]);
    assert first == [FreshItem(g, ids[0], keys[0])] + others;
    assert others == [FreshItem(g, ids[0], keys[1..][0])] + SeedForNode(g, ids[0], keys[1..][1..]);
    if ids[0] == id {
      i := 0;
    } else {
      assert id in ids[1..];
      var k := SeededTwice(g, ids[1..], keys, id);
      i := |first| + k;
    }
  }

  lemma {:induction false} SeedsBelong(g: Graph, ids: seq<Id>, keys: seq<string>)
    ensures forall x :: x in SeedItems(g, ids, keys) ==> x.nodeId in ids && x == FreshItem(g, x.nodeId, x.itemKey)
    ensures ids != [] && keys != [] ==> SeedItems(g, ids, keys) != []
    decreases |ids|
  {
    hide FreshItem;
    if ids == [] {
    } else {
      SeedsBelong(g, ids[1..], keys);
    }
  }

  lemma SeededIsKnown(w: Definition, keys: seq<string>, run: Run)
    requires Accepts(w) && PlainWorkflow(w) && Unseeded(w, run) && keys != []
    ensures var r := EnsureItems(Build(w), keys, run);
            && r.items == SeedItems(Build(w), NodeIds(w.nodes), keys) && Known(r)
            && forall x :: x in r.items ==> x.nodeId in NodeIds(w.nodes) && x == FreshItem(Build(w), x.nodeId, x.itemKey)
  {
    var g, ids := Build(w), NodeIds(w.nodes);
    var r := EnsureItems(g, keys, run);
    hide Accepts, FreshItem, AddAllGroupItems, SyncGroups, KeepGroupItems;
    assert g.definition == w by { BuildDefinition(w); }
    SeedsBelong(g, ids, keys);
    assert NodeIds(w.nodes) != [];
    hide Build, SeedItems;
    forall i | 0 <= i < |r.items| ensures Subjects(r.items)[i].0 in NodeRunIds(r.nodes) { assert r.items[i] in r.items; }
  }

  lemma BuildDefinition(w: Definition)
    ensures Build(w).definition == w
  {
  }

  /** With two keys and an enabled node some drain raises. */
  lemma TwoKeysRaise(w: Definition, keys: seq<string>, run: Run)
    requires Accepts(w) && PlainWorkflow(w) && Unseeded(w, run) && |keys| >= 2
    requires exists id :: id in NodeIds(w.nodes) && Enabled(Build(w), id)
    ensures !NeverRaises(Build(w), EnsureItems(Build(w), keys, run))
  {
    hide Accepts, PlainWorkflow, Unseeded, Build, SeedItems, EnsureItems, NeverRaises, Known, RankedBy;
    var g, r := Build(w), EnsureItems(Build(w), keys, run);
    AcceptedIsPlain(w);
    var rank := AcceptedIsRanked(w);
    var id := LowestIsUnhindered(g, NodeIds(w.nodes), rank);
    SeededIsKnown(w, keys, run);
    var i := SeededTwice(g, NodeIds(w.nodes), keys, id);
    RivalSeeds(g, NodeIds(w.nodes), r.items, keys, id, i);
    PlainIsNodesOnly(g, NodeIds(w.nodes));
    RivalsRaise(g, keys, r, i, i + 1);
  }

  lemma RivalSeeds(g: Graph, ids: seq<Id>, items: seq<ItemRun>, keys: seq<string>, id: Id, i: nat)
    requires NodesOnly(g) || PlainGraph(g, ids)
    requires Unhindered(g, id) && |keys| >= 2 && i + 1 < |items|
    requires items[i] == FreshItem(g, id, keys[0]) && items[i + 1] == FreshItem(g, id, keys[1])
    ensures Rivals(g, items, i, i + 1)
  {
    hide Enabled, Cross, Distinct;
    NoRouting(g, id);
  }

  // ---------------------------------------------------------------- nothing enabled

  lemma {:induction false} AllSkipped(g: Graph, groupItems: seq<GroupItemRun>, items: seq<ItemRun>, i: nat)
    requires i <= |items|
    requires forall k :: i <= k < |items| ==> !Enabled(g, items[k].nodeId) && items[k].status == Skipped
    ensures ReadyFrom(g, groupItems, items, i).Some?
    decreases |items| - i
  {
    if i == |items| {
    } else {
      var x := items[i].(wakeAt := NoWake);
      assert ReadyItem(g, items, groupItems, items[i]) == Some(x);
      AllSkipped(g, groupItems, items[i := x], i + 1);
    }
  }

  ghost predicate AllDisabled(g: Graph, run: Run) {
    forall x :: x in run.items ==> !Enabled(g, x.nodeId) && x.status == Skipped && x.wakeAt == NoWake
  }

  /** The look finds nothing to launch. */
  lemma DisabledLook(cfg: Config, now: int, run: Run)
    requires NodesOnly(cfg.g) && Known(run) && AllDisabled(cfg.g, run)
    ensures LookAt(cfg, now)(run).Some? && LookAt(cfg, now)(run).value.candidates == []
  {
    DisabledPass(cfg, now, run);
    LookIsFaithful(cfg, now);
    var found := LookAt(cfg, now)(run).value;
    assert Handover(cfg, run, found);
    hide LookAt, Faithful, NodesOnly, Known;
    if found.candidates != [] {
      var c := found.candidates[0];
      assert c in found.candidates;
      SameDisabled(cfg.g, run, found.run, c.index);
    }
  }

  lemma SameDisabled(g: Graph, a: Run, b: Run, k: nat)
    requires SameShape(a, b) && AllDisabled(g, a) && k < |b.items|
    ensures !Enabled(g, b.items[k].nodeId)
  {
    assert Subjects(a.items)[k] == Subjects(b.items)[k];
    assert a.items[k] in a.items;
  }

  lemma DisabledPass(cfg: Config, now: int, run: Run)
    requires NodesOnly(cfg.g) && Known(run) && AllDisabled(cfg.g, run)
    ensures ReadinessPass(cfg.g, cfg.itemKeys, now, run).Completed?
  {
    EnsureKeepsItems(cfg.g, cfg.itemKeys, run);
    var start := EnsureItems(cfg.g, cfg.itemKeys, run);
    hide EnsureItems, Known, SyncNodes, GroupPass;
    forall k | 0 <= k < |run.items| ensures !Enabled(cfg.g, run.items[k].nodeId) && run.items[k].status == Skipped {
      assert run.items[k] in run.items;
    }
    AllSkipped(cfg.g, start.groupItems, start.items, 0);
    GroupPassIdle(cfg.g, ItemPass(cfg.g, cfg.itemKeys, now, run).run);
  }

  lemma DisabledEndsAtOnce(cfg: Config, run: Run, now: int, aborted: bool)
    requires NodesOnly(cfg.g) && Known(run) && AllDisabled(cfg.g, run)
    ensures var s := Start(cfg, now, aborted, run); s.phase.Exited? && s.executing == {}
  {
    DisabledLook(cfg, now, run);
    hide LookAt, NodesOnly, Known, AllDisabled, SyncNodes;
  }

  lemma DisabledNeverRaises(g: Graph, run: Run)
    requires NodesOnly(g) && Known(run) && AllDisabled(g, run)
    ensures NeverRaises(g, run)
  {
    hide NodesOnly, Known, AllDisabled;
    forall cfg: Config, states: seq<State> | cfg.g == g && IsDrain(cfg, run, states)
      ensures forall k :: 0 <= k < |states| ==> !states[k].phase.Crashed?
    {
      hide Start;
      var now, aborted :| states[0] == Start(cfg, now, aborted, run);
      DisabledEndsAtOnce(cfg, run, now, aborted);
      NothingFollows(cfg, states[0]);
      OnlyState(cfg, states);
    }
  }

  lemma NothingFollows(cfg: Config, s: State)
    requires s.phase.Exited? && s.executing == {}
    ensures forall t :: !Next(cfg, s, t)
  {
    hide Step;
  }

  lemma OnlyState(cfg: Config, states: seq<State>)
    requires Linked(states, (a: State, b: State) => Next(cfg, a, b)) && forall t :: !Next(cfg, states[0], t)
    ensures |states| == 1
  {
    hide Next;
    if |states| > 1 { FirstStep(states, (a: State, b: State) => Next(cfg, a, b)); }
  }

  // ---------------------------------------------------------------- exactly one key

  lemma OneKeyNeverRaises(w: Definition, itemKey: string, run: Run)
    requires Accepts(w) && PlainWorkflow(w) && Unseeded(w, run)
    ensures NeverRaises(Build(w), EnsureItems(Build(w), [itemKey], run))
  {
    hide Accepts, PlainWorkflow, Unseeded, Build, EnsureItems, IsDrain, FreshRun, Ready, RankedBy;
    var g, r := Build(w), EnsureItems(Build(w), [itemKey], run);
    AcceptedRunIsFresh(w, itemKey, run);
    var rank := AcceptedIsRanked(w);
    forall cfg: Config, states: seq<State> | cfg.g == g && IsDrain(cfg, r, states)
      ensures forall k :: 0 <= k < |states| ==> !states[k].phase.Crashed?
    {
      FreshIsReady(cfg, itemKey, r);
      OneDrain(cfg, r, states);
      forall k | 0 <= k < |states| ensures !states[k].phase.Crashed? {
        NoTransitionRaises(cfg, itemKey, r, rank, [Leg(cfg, states)], 0, k);
      }
    }
  }

  lemma EnabledByName(w: Definition, n: Node)
    requires Accepts(w) && n in w.nodes
    ensures Enabled(Build(w), n.id) <==> n.enabled
  {
    DistinctNodes(w);
    BuildDefinition(w);
    hide Accepts, Build;
    var last := NodeById(Build(w), n.id).value;
    var i :| 0 <= i < |w.nodes| && w.nodes[i] == n;
    var j :| 0 <= j < |w.nodes| && w.nodes[j] == last;
    assert NodeIds(w.nodes)[i] == NodeIds(w.nodes)[j];
  }

  lemma DisabledSeeds(w: Definition, keys: seq<string>, run: Run)
    requires Accepts(w) && PlainWorkflow(w) && Unseeded(w, run) && keys != []
    requires forall id :: id in NodeIds(w.nodes) ==> !Enabled(Build(w), id)
    ensures NeverRaises(Build(w), EnsureItems(Build(w), keys, run))
  {
    hide Accepts, PlainWorkflow, Unseeded, Build, EnsureItems, SeedItems, NeverRaises, Known, Enabled;
    var g, r := Build(w), EnsureItems(Build(w), keys, run);
    AcceptedIsPlain(w);
    PlainIsNodesOnly(g, NodeIds(w.nodes));
    SeededIsKnown(w, keys, run);
    forall x | x in r.items ensures !Enabled(g, x.nodeId) && x.status == Skipped && x.wakeAt == NoWake {
      assert x == FreshItem(g, x.nodeId, x.itemKey);
    }
    DisabledNeverRaises(g, r);
  }

  /**
   * Draining the seeded run of an accepted plain workflow never raises, whatever the settings, verdicts and
   * interleaving, exactly when there is one item key, or no node is enabled at all.
   */
  lemma RaisesExactly(w: Definition, keys: seq<string>, run: Run)
    requires Accepts(w) && PlainWorkflow(w) && Unseeded(w, run) && keys != []
    ensures NeverRaises(Build(w), EnsureItems(Build(w), keys, run)) <==>
              |keys| == 1 || forall n :: n in w.nodes ==> !n.enabled
  {
    hide Accepts, PlainWorkflow, Unseeded, Build, EnsureItems, NeverRaises, Enabled;
    forall n | n in w.nodes ensures Enabled(Build(w), n.id) <==> n.enabled { EnabledByName(w, n); }
    var ids := NodeIds(w.nodes);
    assert forall i :: 0 <= i < |ids| ==> w.nodes[i] in w.nodes && ids[i] == w.nodes[i].id;
    if |keys| == 1 {
      assert keys == [keys[0]];
      OneKeyNeverRaises(w, keys[0], run);
    } else if n :| n in w.nodes && n.enabled {
      var i :| 0 <= i < |w.nodes| && w.nodes[i] == n;
      assert ids[i] in ids && Enabled(Build(w), ids[i]);
      TwoKeysRaise(w, keys, run);
    } else {
      DisabledSeeds(w, keys, run);
    }
  }
}
