/** When a drain can end with a node still waiting: exactly when the item order allows it. */
module StuckDrains {
  import opened Common
  import opened Digraph
  import opened Workflow
  import opened WorkflowGraph
  import opened StateMachine
  import opened RunModel
  import opened Readiness
  import opened Fragment
  import opened Runs
  import opened Drain
  import opened DrainTasks
  import opened Scheduling
  import opened PlainRuns
  import opened DrainOutcome
  import opened DrainResults

  predicate HasOutcome(s: Status) { s in {Success, Failed, Skipped} }

  /** Some verdicts leave this node skipped: its disabled sources alone do not let it run. */
  ghost predicate CanBeSkipped(g: Graph, id: Id) {
    var incoming := Incoming(g.definition.edges, id);
    && Enabled(g, id)
    && incoming != []
    && (if WaitsForAny(g, id) then forall e :: e in incoming ==> Enabled(g, e.from)
        else exists e :: e in incoming && Enabled(g, e.from))
  }

  /** Two nodes that can be skipped, listed with the dependent one first. */
  ghost predicate ListedTooEarly(g: Graph, ids: seq<Id>) {
    exists a: nat, b: nat :: TooEarly(g, ids, a, b)
  }

  ghost predicate TooEarly(g: Graph, ids: seq<Id>, a: nat, b: nat) {
    a < b < |ids| && HasEdge(g, ids[b], ids[a]) && CanBeSkipped(g, ids[a]) && CanBeSkipped(g, ids[b])
  }

  /** Every enabled item has an outcome. */
  ghost predicate AllSettled(g: Graph, items: seq<ItemRun>) {
    forall i :: 0 <= i < |items| && Enabled(g, items[i].nodeId) ==> HasOutcome(items[i].status)
  }

  /**
   * Whatever the settings, verdicts and interleaving: drains of the run, one after another, leave no item without
   * an outcome if the last of them ends of itself.
   */
  ghost predicate NeverStuck(g: Graph, run: Run) {
    forall cfg: Config, legs: seq<Leg> | cfg.g == g && IsChain(cfg, run, legs) && Ended(EndState(cfg, run, legs)) ::
      AllSettled(g, EndState(cfg, run, legs).run.items)
  }

  // ---------------------------------------------------------------- positions and names

  lemma SkippableByName(g: Graph, ids: seq<Id>, i: nat)
    requires PlainGraph(g, ids) && i < |ids|
    ensures Skippable(DagOf(g, ids), i) <==> CanBeSkipped(g, ids[i])
  {
    NoSources(g, ids, i);
    if Skippable(DagOf(g, ids), i) { SkippableToName(g, ids, i); }
    if CanBeSkipped(g, ids[i]) { SkippableFromName(g, ids, i); }
  }

  lemma SkippableToName(g: Graph, ids: seq<Id>, i: nat)
    requires PlainGraph(g, ids) && i < |ids| && Skippable(DagOf(g, ids), i)
    ensures CanBeSkipped(g, ids[i])
  {
    NoSources(g, ids, i);
    var dag := DagOf(g, ids);
    if WaitsForAny(g, ids[i]) {
      forall e | e in Incoming(g.definition.edges, ids[i]) ensures Enabled(g, e.from) {
        var j := SourceOfEdge(g, ids, i, e);
        assert dag.on[j];
      }
    } else {
      var j :| j in dag.sources[i] && dag.on[j];
      var e := EdgeOfSource(g, ids, i, j);
    }
  }

  lemma SkippableFromName(g: Graph, ids: seq<Id>, i: nat)
    requires PlainGraph(g, ids) && i < |ids| && CanBeSkipped(g, ids[i])
    ensures Skippable(DagOf(g, ids), i)
  {
    NoSources(g, ids, i);
    var dag := DagOf(g, ids);
    if WaitsForAny(g, ids[i]) {
      forall j | j in dag.sources[i] ensures dag.on[j] {
        var e := EdgeOfSource(g, ids, i, j);
      }
    } else {
      var e :| e in Incoming(g.definition.edges, ids[i]) && Enabled(g, e.from);
      var j := SourceOfEdge(g, ids, i, e);
      assert dag.on[j];
    }
  }

  lemma InversionToName(g: Graph, ids: seq<Id>)
    requires PlainGraph(g, ids) && HasInversion(DagOf(g, ids))
    ensures ListedTooEarly(g, ids)
  {
    var dag := DagOf(g, ids);
    var i, j :| 0 <= i < |dag.on| && j in dag.sources[i] && Inversion(dag, i, j);
    assert HasEdge(g, ids[j], ids[i]);
    SkippableByName(g, ids, i);
    SkippableByName(g, ids, j);
    assert TooEarly(g, ids, i, j);
  }

  lemma InversionFromName(g: Graph, ids: seq<Id>)
    requires PlainGraph(g, ids) && ListedTooEarly(g, ids)
    ensures HasInversion(DagOf(g, ids))
  {
    var dag := DagOf(g, ids);
    var a: nat, b: nat :| TooEarly(g, ids, a, b);
    SkippableByName(g, ids, a);
    SkippableByName(g, ids, b);
    assert b in dag.sources[a] && Inversion(dag, a, b);
  }

  lemma InversionByName(g: Graph, ids: seq<Id>)
    requires PlainGraph(g, ids)
    ensures HasInversion(DagOf(g, ids)) <==> ListedTooEarly(g, ids)
  {
    if HasInversion(DagOf(g, ids)) { InversionToName(g, ids); }
    if ListedTooEarly(g, ids) { InversionFromName(g, ids); }
  }

  // ---------------------------------------------------------------- a good order never gets stuck

  lemma GoodOrderSettles(cfg: Config, itemKey: string, run: Run, rank: map<Id, nat>, legs: seq<Leg>)
    requires Ready(cfg, itemKey, run) && RankedBy(cfg.g, rank) && IsChain(cfg, run, legs)
    requires Ended(EndState(cfg, run, legs)) && !ListedTooEarly(cfg.g, ItemNodeIds(run.items))
    ensures AllSettled(cfg.g, EndState(cfg, run, legs).run.items)
    ensures forall x :: x in EndState(cfg, run, legs).run.items ==> HasOutcome(x.status)
  {
    var f, last := FrameFor(cfg, itemKey, run, rank), legs[|legs| - 1];
    ChainFine(cfg, itemKey, run, rank, legs, |legs| - 1);
    EndedFine(cfg, itemKey, run, rank, last.cfg, Final(last));
    FrameIsFrame(cfg, itemKey, run, rank);
    hide Ready, RankedBy, IsChain, Inv, FrameFor, Fine, Later;
    RestSettles(cfg, f, Final(last));
  }

  lemma RestSettles(cfg: Config, f: Frame, s: State)
    requires FrameOf(cfg, f) && Good(cfg, f, s) && AtRest(f, s) && !ListedTooEarly(cfg.g, f.ids)
    ensures forall x :: x in s.run.items ==> HasOutcome(x.status)
  {
    hide Inv, Underway, Untried, ListedTooEarly, HasInversion, NodesOnly, MaxAttempts;
    var items := s.run.items;
    InversionByName(cfg.g, f.ids);
    var before :| Quiet(f.dag, f.ok, before, Statuses(items));
    forall i | 0 <= i < |items| ensures HasOutcome(items[i].status) {
      EnabledAt(cfg, f, s, i);
      if f.dag.on[i] {
        NoneStuck(f.dag, f.rank, f.ok, before, Statuses(items), i);
      } else {
        Turns(f.dag, before, 0, Statuses(items));
      }
    }
  }

  lemma NodeTakesItemStatus(nodes: seq<NodeRun>, items: seq<ItemRun>, k: nat)
    requires k < |nodes| && nodes[k].id in ItemNodeIds(items)
    requires forall i :: 0 <= i < |items| ==> HasOutcome(items[i].status)
    ensures HasOutcome(SyncNodes(nodes, items)[k].status)
  {
    var related := Filter(items, (x: ItemRun) => x.nodeId == nodes[k].id);
    var i :| 0 <= i < |items| && items[i].nodeId == nodes[k].id;
    assert items[i] in related;
    var r :| 0 <= r < |related| && related[r].status == Aggregate(related);
    assert related[r] in related && related[r] in items;
  }

  /** With a good order and an item for every node, the run that such drains leave is not reported as running. */
  lemma FinalStatusDecided(cfg: Config, itemKey: string, run: Run, rank: map<Id, nat>, legs: seq<Leg>)
    requires Ready(cfg, itemKey, run) && RankedBy(cfg.g, rank) && IsChain(cfg, run, legs)
    requires Ended(EndState(cfg, run, legs)) && !ListedTooEarly(cfg.g, ItemNodeIds(run.items))
    requires forall n :: n in run.nodes ==> n.id in ItemNodeIds(run.items)
    ensures var last := EndState(cfg, run, legs).run;
            ComputeRunStatus(NodeStatuses(last.nodes), GroupStatuses(last.groups)) in {RunSuccess, RunFailed}
  {
    var f, last := FrameFor(cfg, itemKey, run, rank), legs[|legs| - 1];
    ChainFine(cfg, itemKey, run, rank, legs, |legs| - 1);
    EndedFine(cfg, itemKey, run, rank, last.cfg, Final(last));
    GoodOrderSettles(cfg, itemKey, run, rank, legs);
    hide Ready, RankedBy, IsChain, ListedTooEarly, Fine, Later, EndState;
    SettledRunDecided(cfg, f, Final(last), run.nodes);
  }

  lemma SettledRunDecided(cfg: Config, f: Frame, s: State, nodes: seq<NodeRun>)
    requires Good(cfg, f, s) && Closed(s) && (forall x :: x in s.run.items ==> HasOutcome(x.status))
    requires NodeRunIds(nodes) == f.nodeIds && forall n :: n in nodes ==> n.id in f.ids
    ensures ComputeRunStatus(NodeStatuses(s.run.nodes), GroupStatuses(s.run.groups)) in {RunSuccess, RunFailed}
  {
    hide Inv, Underway, Untried, ComputeRunStatus, SyncNodes;
    forall i | 0 <= i < |s.run.items| ensures HasOutcome(s.run.items[i].status) {
      assert s.run.items[i] in s.run.items;
    }
    SameNodes(nodes, s.run.nodes, f.ids);
    NodesSettled(s.run.nodes, s.run.items);
    assert GroupStatuses(s.run.groups) == [];
  }

  lemma SameNodes(a: seq<NodeRun>, b: seq<NodeRun>, ids: seq<Id>)
    requires NodeRunIds(a) == NodeRunIds(b) && forall n :: n in a ==> n.id in ids
    ensures forall k :: 0 <= k < |b| ==> b[k].id in ids
  {
    forall k | 0 <= k < |b| ensures b[k].id in ids {
      assert NodeRunIds(a)[k] == NodeRunIds(b)[k];
      assert a[k] in a;
    }
  }

  lemma NodesSettled(nodes: seq<NodeRun>, items: seq<ItemRun>)
    requires nodes == SyncNodes(nodes, items)
    requires forall k :: 0 <= k < |nodes| ==> nodes[k].id in ItemNodeIds(items)
    requires forall i :: 0 <= i < |items| ==> HasOutcome(items[i].status)
    ensures ComputeRunStatus(NodeStatuses(nodes), []) in {RunSuccess, RunFailed}
  {
    forall k | 0 <= k < |nodes| ensures HasOutcome(NodeStatuses(nodes)[k]) {
      NodeTakesItemStatus(nodes, items, k);
    }
  }

  function NodeStatuses(nodes: seq<NodeRun>): (r: seq<Status>)
    ensures |r| == |nodes| && forall i :: 0 <= i < |nodes| ==> r[i] == nodes[i].status
  {
    seq(|nodes|, i requires 0 <= i < |nodes| => nodes[i].status)
  }

  function GroupStatuses(groups: seq<GroupRun>): (r: seq<Status>)
    ensures |r| == |groups| && forall i :: 0 <= i < |groups| ==> r[i] == groups[i].status
  {
    seq(|groups|, i requires 0 <= i < |groups| => groups[i].status)
  }

  // ---------------------------------------------------------------- a bad order can get stuck

  /** Every node fails without halting. */
  function AllFail(ids: seq<Id>): (r: map<Id, Verdict>)
    ensures forall i :: 0 <= i < |ids| ==> ids[i] in r && r[ids[i]] == Fail(false, true)
  {
    map id | id in ids :: Fail(false, true)
  }

  /** Everything that ran is running or has failed, and what can be skipped still waits. */
  ghost predicate Failing(cfg: Config, f: Frame, s: State, skippable: set<Status>, others: set<Status>) {
    && Good(cfg, f, s)
    && Poised(f.dag, Statuses(s.run.items), skippable, others)
    && (forall i :: i in s.settled ==> s.settled[i] == TaskFailed(false))
    && !s.stop
  }

  /** No agent run has begun. */
  ghost predicate Halfway(cfg: Config, f: Frame, s: State, skippable: set<Status>, others: set<Status>) {
    Failing(cfg, f, s, skippable, others) && s.begun == {} && s.ended == map[]
  }

  /** Indices that a batch names. */
  ghost predicate Names(batch: seq<Candidate>, i: nat) { NodeItem(i) in batch }

  lemma {:induction false} LaunchAllStatuses(cfg: Config, s: State, batch: seq<Candidate>)
    requires FreshBatch(cfg.g, s.run.items, batch)
    requires Untried(cfg.g, s.run.items)
    ensures var t := LaunchAll(cfg, s, batch);
            forall i :: 0 <= i < |s.run.items| ==>
              t.run.items[i].status == if Names(batch, i) then Running else s.run.items[i].status
    decreases |batch|
  {
    if batch == [] {
    } else {
      var k := batch[0].index;
      assert batch[0] in batch;
      var t := Launch(cfg, s, k);
      TailFresh(cfg.g, s.run.items, t.run.items, batch);
      LaunchAllStatuses(cfg, t, batch[1..]);
      assert batch == [batch[0]] + batch[1..];
      assert batch[0] == NodeItem(k);
    }
  }

  /** The settings under which one round launches everything the first look finds. */
  function Roomy(n: nat): Scheduler { Scheduler(true, true, n, n + 1) }

  lemma FirstStatuses(cfg: Config, f: Frame, run: Run, found: Found)
    requires FrameOf(cfg, f) && Good(cfg, f, Initial(run)) && Fresh(f.dag, Statuses(run.items))
    requires LookAt(cfg, 0)(run) == Some(found)
    ensures PassFrom(f.dag, Statuses(run.items), 0) == Some(Statuses(found.run.items))
    ensures Finds(cfg.g, f.ids, run, Statuses(found.run.items), found)
    ensures forall k :: 0 <= k < |f.ids| ==>
              found.run.items[k].status == if !f.dag.on[k] then Skipped else if Skippable(f.dag, k) then Waiting else Queued
    ensures |found.run.items| == |f.ids|
  {
    FirstPass(f.dag, f.rank, Statuses(run.items), 0);
    LookByPosition(cfg, 0, f.ids, f.itemKey, run);
    RestatedFacts(run.items, found.run.items, PassFrom(f.dag, Statuses(run.items), 0).value, f.itemKey);
  }

  lemma FirstRoundPoised(cfg: Config, f: Frame, run: Run, found: Found, t: State)
    requires FrameOf(cfg, f) && Good(cfg, f, Initial(run)) && Fresh(f.dag, Statuses(run.items))
    requires LookAt(cfg, 0)(run) == Some(found) && Untried(cfg.g, found.run.items)
    requires t == LaunchAll(cfg, Initial(run).(run := found.run), found.candidates)
    ensures Poised(f.dag, Statuses(t.run.items), {Waiting}, {Running})
  {
    hide LookAt, LaunchAll, Good, Fresh, PassFrom, MaxAttempts, PlainRun;
    FirstStatuses(cfg, f, run, found);
    LaunchAllStatuses(cfg, Initial(run).(run := found.run), found.candidates);
    var items := found.run.items;
    forall k | 0 <= k < |f.ids|
      ensures if !f.dag.on[k] then t.run.items[k].status == Skipped
              else if Skippable(f.dag, k) then t.run.items[k].status == Waiting else t.run.items[k].status == Running
    {
      assert Names(found.candidates, k) ==> items[k].status == Queued;
    }
  }

  lemma RoundTakesAll(cfg: Config, run: Run, found: Found)
    requires found.candidates != [] && MaxConcurrency(cfg) == |found.candidates|
    ensures var t := LaunchAll(cfg, Initial(run).(run := found.run), found.candidates);
            Round(cfg, Initial(run), found) == t.(executed := |found.candidates|)
  {
    hide LaunchAll;
    assert FirstOf(found.candidates, MaxConcurrency(cfg)) == found.candidates;
  }

  lemma FirstRoundGood(cfg: Config, f: Frame, run: Run, found: Found)
    requires FrameOf(cfg, f) && Good(cfg, f, Initial(run)) && Fresh(f.dag, Statuses(run.items))
    requires LookAt(cfg, 0)(run) == Some(found) && found.candidates != []
    ensures var t := LaunchAll(cfg, Initial(run).(run := found.run), found.candidates);
            Good(cfg, f, t) && t.settled == map[] && t.executing != {} && Untried(cfg.g, found.run.items)
  {
    var s := Initial(run);
    FirstStatuses(cfg, f, run, found);
    FoundGood(cfg, f, s, found, Statuses(found.run.items));
    FoundMayStart(cfg, f, s, found, Statuses(found.run.items));
    LaunchAllGood(cfg, f, s.(run := found.run), found.candidates);
  }

  /** After the first round everything that cannot be skipped runs. */
  lemma FirstRound(cfg: Config, f: Frame, run: Run, found: Found)
    requires FrameOf(cfg, f) && Good(cfg, f, Initial(run)) && Fresh(f.dag, Statuses(run.items))
    requires LookAt(cfg, 0)(run) == Some(found) && found.candidates != [] && MaxConcurrency(cfg) == |found.candidates|
    ensures var t := Round(cfg, Initial(run), found);
            && Halfway(cfg, f, t, {Waiting}, {Running}) && t.settled == map[] && t.executing != {}
  {
    var t := LaunchAll(cfg, Initial(run).(run := found.run), found.candidates);
    FirstRoundGood(cfg, f, run, found);
    FirstRoundPoised(cfg, f, run, found, t);
    RoundTakesAll(cfg, run, found);
    CounterIgnored(cfg, f, t, |found.candidates|);
  }

  /** That round fills every slot, so the drain goes on to wait. */
  lemma FirstRoundFills(cfg: Config, run: Run, found: Found)
    requires FreshBatch(cfg.g, found.run.items, found.candidates)
    requires found.candidates != [] && MaxConcurrency(cfg) == |found.candidates|
    ensures var t := Round(cfg, Initial(run), found);
            && Active(t) == |found.candidates| && t.executed == |found.candidates|
            && t.phase.Racing?
  {
    RoundTakesAll(cfg, run, found);
    LaunchesCount(cfg, Initial(run).(run := found.run), found.candidates);
  }

  /** The status that node k may have while the running nodes fail. */
  ghost predicate PoisedAt(dag: Dag, status: Status, k: nat)
    requires dag.Shaped() && k < |dag.on|
  {
    if !dag.on[k] then status in {Queued, Blocked, Waiting, Skipped}
    else if Skippable(dag, k) then status in {Queued, Waiting} else status in {Running, Failed}
  }

  /** One running task fails: what can be skipped still waits or is queued. */
  lemma FailOneAt(f: Frame, before: seq<ItemRun>, items: seq<ItemRun>, after: seq<ItemRun>, targets: set<Id>, i: nat, k: nat)
    requires Inv(f.dag, f.ok, Statuses(after)) && |before| == |items| == |f.dag.on| && i < |items| && k < |items|
    requires PoisedAt(f.dag, before[k].status, k) && PoisedAt(f.dag, before[i].status, i) && before[i].status == Running
    requires items[k] == before[k] || (k == i && items[i].status == Failed)
    requires PromotesItems(items, after, targets)
    ensures PoisedAt(f.dag, after[k].status, k)
  {
    assert Sound(f.dag, f.ok, Statuses(after), k);
  }

  lemma FailOnePoised(cfg: Config, f: Frame, s: State, i: nat, t: State, items: seq<ItemRun>)
    requires FrameOf(cfg, f) && Good(cfg, f, t) && i in s.executing && Good(cfg, f, s)
    requires Poised(f.dag, Statuses(s.run.items), {Queued, Waiting}, {Running, Failed})
    requires |items| == |f.ids| && (forall k :: 0 <= k < |items| && k != i ==> items[k] == s.run.items[k])
    requires items[i].status == Failed
    requires PromotesItems(items, t.run.items, set e | e in Outgoing(cfg.g.definition.edges, f.ids[i]) :: e.to)
    ensures Poised(f.dag, Statuses(t.run.items), {Queued, Waiting}, {Running, Failed})
  {
    hide PlainGraph, Known, NodeFits, MaxAttempts, Outgoing, CanStart, Judge;
    assert s.run.items[i].status == Running;
    var targets := set e | e in Outgoing(cfg.g.definition.edges, f.ids[i]) :: e.to;
    forall k | 0 <= k < |f.ids| ensures PoisedAt(f.dag, s.run.items[k].status, k) {
      assert Statuses(s.run.items)[k] == s.run.items[k].status;
    }
    forall k | 0 <= k < |f.ids| ensures PoisedAt(f.dag, t.run.items[k].status, k) {
      FailOneAt(f, s.run.items, items, t.run.items, targets, i, k);
    }
  }

  /** The result of an agent run that is over is taken over by its item. */
  lemma DoneFields(cfg: Config, f: Frame, s: State, i: nat)
    requires FrameOf(cfg, f) && Good(cfg, f, s) && i in s.ended
    ensures var t := Finish(cfg, s, i);
            t == s.(run := t.run, executing := s.executing - {i}, begun := s.begun - {i}, ended := s.ended - {i},
                    settled := s.settled[i := Drain.ResultOf(s.ended[i])])
  {
    EndedFacts(cfg, f, s, i);
    FinishGood(cfg, f, s, i);
    hide Finish, Good, FrameOf;
    FinishFields(cfg, s, i);
  }

  /** A failure is taken over by its item. */
  lemma FailOne(cfg: Config, f: Frame, s: State, i: nat)
    requires FrameOf(cfg, f) && i in s.ended && s.ended[i] == Fail(false, true)
    requires Failing(cfg, f, s, {Queued, Waiting}, {Running, Failed})
    ensures Failing(cfg, f, Finish(cfg, s, i), {Queued, Waiting}, {Running, Failed})
  {
    var t := Finish(cfg, s, i);
    DoneFields(cfg, f, s, i);
    FinishGood(cfg, f, s, i);
    var items := FinishedItems(cfg, f, s, i);
    assert !f.ok[i];
    hide FrameOf, Finish, PromotesItems, Outgoing, Inv, Untried, PlainRun;
    FailOnePoised(cfg, f, s, i, t, items);
  }

  lemma StepIsNext(cfg: Config, s: State, input: Input)
    requires Allowed(cfg, s, input)
    ensures Next(cfg, s, Step(cfg, s, input))
  {
  }

  /** Beginning and ending an agent run moves its node and nothing else. */
  lemma BeginFields(cfg: Config, f: Frame, s: State, i: nat)
    requires FrameOf(cfg, f) && Good(cfg, f, s) && Allowed(cfg, s, Begin(i))
    ensures var t := Step(cfg, s, Begin(i)); t == s.(run := s.run.(nodes := t.run.nodes), begun := s.begun + {i})
  {
    hide NodeIndex, Good, TransitionStatus, FrameOf, Later;
    BeginGood(cfg, f, s, i);
  }

  lemma EndNodeFields(cfg: Config, s: State, i: nat)
    requires i < |s.run.items|
    requires var id := s.run.items[i].nodeId;
             MarkNode(s.run, id, if VerdictOf(cfg, id).Succeed? then Success else Failed).Some?
    ensures var t := EndNode(cfg, s, i);
            t == s.(run := s.run.(nodes := t.run.nodes), ended := s.ended[i := VerdictOf(cfg, s.run.items[i].nodeId)])
  {
    hide NodeIndex, VerdictOf, TransitionStatus;
  }

  lemma EndFields(cfg: Config, f: Frame, s: State, i: nat)
    requires FrameOf(cfg, f) && Good(cfg, f, s) && Allowed(cfg, s, End(i))
    ensures i < |f.ids|
    ensures var t := Step(cfg, s, End(i));
            t == s.(run := s.run.(nodes := t.run.nodes), ended := s.ended[i := VerdictOf(cfg, f.ids[i])])
  {
    EnabledAt(cfg, f, s, i);
    assert NodeFits(s.run.nodes, f.ids[i], i in s.begun);
    hide NodeIndex, Good, MarkNode, FrameOf, NodeFits, EndNode;
    NodeCan(s.run, f.ids[i], i in s.begun);
    EndNodeFields(cfg, s, i);
  }

  lemma FailsAt(cfg: Config, f: Frame, i: nat)
    requires cfg.verdicts == AllFail(f.ids) && i < |f.ids|
    ensures VerdictOf(cfg, f.ids[i]) == Fail(false, true)
  {
  }

  lemma BeginTask(cfg: Config, f: Frame, s: State, i: nat) returns (t: State)
    requires FrameOf(cfg, f) && Good(cfg, f, s) && s.phase.Racing? && i in s.executing && i < |f.ids|
    requires i !in s.begun && i !in s.ended && VerdictOf(cfg, f.ids[i]) != NoSession
    ensures Next(cfg, s, t) && Good(cfg, f, t)
    ensures t == s.(run := s.run.(nodes := t.run.nodes), begun := s.begun + {i})
  {
    TaskIsItem(cfg, f, s, i);
    EnabledAt(cfg, f, s, i);
    hide FrameOf, Good, Step, Later;
    t := Step(cfg, s, Begin(i));
    StepIsNext(cfg, s, Begin(i));
    BeginGood(cfg, f, s, i);
    BeginFields(cfg, f, s, i);
  }

  lemma EndTask(cfg: Config, f: Frame, s: State, i: nat) returns (t: State)
    requires FrameOf(cfg, f) && Good(cfg, f, s) && s.phase.Racing? && i in s.executing && i < |f.ids|
    requires i in s.begun && i !in s.ended
    ensures Next(cfg, s, t) && Good(cfg, f, t)
    ensures t == s.(run := s.run.(nodes := t.run.nodes), ended := s.ended[i := VerdictOf(cfg, f.ids[i])])
  {
    TaskIsItem(cfg, f, s, i);
    hide FrameOf, Good, Step, Later;
    t := Step(cfg, s, End(i));
    StepIsNext(cfg, s, End(i));
    EndGood(cfg, f, s, i);
    EndFields(cfg, f, s, i);
  }

  /** The agent run of a task begins and ends. */
  lemma RunFails(cfg: Config, f: Frame, s: State, i: nat) returns (s1: State, s2: State)
    requires FrameOf(cfg, f) && cfg.verdicts == AllFail(f.ids) && s.phase.Racing? && i in s.executing
    requires Halfway(cfg, f, s, {Queued, Waiting}, {Running, Failed})
    ensures Next(cfg, s, s1) && Next(cfg, s1, s2)
    ensures Failing(cfg, f, s2, {Queued, Waiting}, {Running, Failed})
    ensures s2 == s.(run := s.run.(nodes := s2.run.nodes), begun := {i}, ended := map[i := Fail(false, true)])
  {
    TaskIsItem(cfg, f, s, i);
    EnabledAt(cfg, f, s, i);
    FailsAt(cfg, f, i);
    hide FrameOf, Poised, AllFail, Good, Next, VerdictOf;
    s1 := BeginTask(cfg, f, s, i);
    s2 := EndTask(cfg, f, s1, i);
  }

  /** One running task fails from beginning to end. */
  lemma FailNext(cfg: Config, f: Frame, s: State) returns (t: State, path: seq<State>)
    requires FrameOf(cfg, f) && cfg.verdicts == AllFail(f.ids) && s.phase.Racing? && s.executing != {}
    requires Halfway(cfg, f, s, {Queued, Waiting}, {Running, Failed})
    ensures |path| == 3 && path[0] == s && Next(cfg, s, path[1]) && Next(cfg, path[1], path[2]) && Next(cfg, path[2], t)
    ensures Halfway(cfg, f, t, {Queued, Waiting}, {Running, Failed})
    ensures t.executing < s.executing && t.executing + t.settled.Keys == s.executing + s.settled.Keys
    ensures t.executed == s.executed && t.phase.Racing?
  {
    hide FrameOf, Poised, Good, Next;
    var i :| i in s.executing;
    var s1, s2 := RunFails(cfg, f, s, i);
    path := [s, s1, s2];
    TaskIsItem(cfg, f, s2, i);
    t := Finish(cfg, s2, i);
    StepIsNext(cfg, s2, Done(i));
    FailOne(cfg, f, s2, i);
    DoneFields(cfg, f, s2, i);
    hide Finish, Failing;
  }

  lemma TaskIsItem(cfg: Config, f: Frame, s: State, i: nat)
    requires Good(cfg, f, s) && i in s.executing
    ensures i < |s.run.items|
  {
  }

  lemma {:induction false} FailAll(cfg: Config, f: Frame, s: State) returns (states: seq<State>)
    requires FrameOf(cfg, f) && cfg.verdicts == AllFail(f.ids) && s.phase.Racing?
    requires Halfway(cfg, f, s, {Queued, Waiting}, {Running, Failed})
    ensures Linked(states, (a: State, b: State) => Next(cfg, a, b)) && states[0] == s
    ensures Halfway(cfg, f, states[|states| - 1], {Queued, Waiting}, {Running, Failed})
    ensures states[|states| - 1].executing == {} && states[|states| - 1].settled.Keys == s.executing + s.settled.Keys
    ensures states[|states| - 1].executed == s.executed && states[|states| - 1].phase.Racing?
    decreases s.executing
  {
    hide FrameOf, Halfway, Next;
    if s.executing == {} {
      states := [s];
    } else {
      var t, path := FailNext(cfg, f, s);
      var rest := FailAll(cfg, f, t);
      LinkedCons(cfg, path[2], rest);
      LinkedCons(cfg, path[1], [path[2]] + rest);
      LinkedCons(cfg, s, [path[1]] + ([path[2]] + rest));
      states := [s] + ([path[1]] + ([path[2]] + rest));
      assert states[|states| - 1] == rest[|rest| - 1];
    }
  }

  lemma LinkedCons(cfg: Config, s: State, rest: seq<State>)
    requires Linked(rest, (a: State, b: State) => Next(cfg, a, b)) && Next(cfg, s, rest[0])
    ensures Linked([s] + rest, (a: State, b: State) => Next(cfg, a, b))
  {
    var next := (a: State, b: State) => Next(cfg, a, b);
    var states := [s] + rest;
    forall k | 0 <= k < |states| - 1 ensures next(states[k], states[k + 1]) {
      if k > 0 { assert next(rest[k - 1], rest[k - 1 + 1]); }
    }
  }

  lemma LinkedSnoc(cfg: Config, front: seq<State>, t: State)
    requires Linked(front, (a: State, b: State) => Next(cfg, a, b)) && Next(cfg, front[|front| - 1], t)
    ensures Linked(front + [t], (a: State, b: State) => Next(cfg, a, b))
  {
    var next := (a: State, b: State) => Next(cfg, a, b);
    var states := front + [t];
    forall k | 0 <= k < |states| - 1 ensures next(states[k], states[k + 1]) {
      if k < |front| - 1 { assert next(front[k], front[k + 1]); }
    }
  }

  lemma LookNothing(cfg: Config, look: Look, s: State, found: Found)
    requires look(s.run) == Some(found) && found.candidates == []
    requires Active(s) == 0 && !s.stop && s.executed < Limit(cfg) && s.phase.Racing?
    ensures Ended(Body(cfg, look, false, s)) && Body(cfg, look, false, s).run.items == found.run.items
  {
  }

  lemma NothingRuns(cfg: Config, f: Frame, s: State)
    requires Halfway(cfg, f, s, {Queued, Waiting}, {Running, Failed}) && s.executing == {}
    ensures Poised(f.dag, Statuses(s.run.items), {Queued, Waiting}, {Failed})
  {
    forall k | 0 <= k < |f.ids| ensures s.run.items[k].status != Running {
      assert k !in s.executing;
    }
  }

  lemma AfterLastPass(dag: Dag, st: seq<Status>, a: nat, b: nat) returns (after: seq<Status>)
    requires Poised(dag, st, {Queued, Waiting}, {Failed}) && Inversion(dag, a, b)
    ensures PassFrom(dag, st, 0) == Some(after) && |after| == |dag.on|
    ensures after[a] == Waiting && forall k :: 0 <= k < |after| && dag.on[k] ==> after[k] != Queued
  {
    assert Poised(dag, st, {Queued, Waiting, Skipped}, {Failed});
    LastPass(dag, st, 0);
    after := PassFrom(dag, st, 0).value;
  }

  /** When everything that ran has failed, the pass queues nothing and the early node goes on waiting. */
  lemma LastStatuses(cfg: Config, f: Frame, s: State, a: nat, b: nat) returns (after: seq<Status>)
    requires FrameOf(cfg, f) && Halfway(cfg, f, s, {Queued, Waiting}, {Running, Failed}) && s.executing == {}
    requires Inversion(f.dag, a, b)
    ensures PassFrom(f.dag, Statuses(s.run.items), 0) == Some(after)
    ensures after[a] == Waiting && forall k :: 0 <= k < |after| && f.dag.on[k] ==> after[k] != Queued
  {
    NothingRuns(cfg, f, s);
    after := AfterLastPass(f.dag, Statuses(s.run.items), a, b);
  }

  lemma LastLook(cfg: Config, f: Frame, s: State, a: nat, b: nat)
    requires FrameOf(cfg, f) && Halfway(cfg, f, s, {Queued, Waiting}, {Running, Failed}) && s.executing == {} && s.settled == map[]
    requires Inversion(f.dag, a, b) && s.executed < Limit(cfg) && s.phase.Racing?
    ensures var t := Body(cfg, LookAt(cfg, 0), false, s);
            Ended(t) && |t.run.items| == |f.ids| && t.run.items[a].status == Waiting
  {
    var after := LastStatuses(cfg, f, s, a, b);
    LookByPosition(cfg, 0, f.ids, f.itemKey, s.run);
    var found := LookAt(cfg, 0)(s.run).value;
    RestatedFacts(s.run.items, found.run.items, after, f.itemKey);
    NoCandidates(cfg, f, found, after);
    LookNothing(cfg, LookAt(cfg, 0), s, found);
    assert Statuses(found.run.items)[a] == Waiting;
  }

  /** A candidate is an enabled queued node. */
  lemma CandidateIsQueued(cfg: Config, f: Frame, found: Found, after: seq<Status>) returns (k: nat)
    requires Statuses(found.run.items) == after && ItemNodeIds(found.run.items) == f.ids && f.dag == DagOf(cfg.g, f.ids)
    requires FreshBatch(cfg.g, found.run.items, found.candidates) && found.candidates != []
    ensures k < |after| == |f.dag.on| && f.dag.on[k] && after[k] == Queued
  {
    var c := found.candidates[0];
    assert c in found.candidates;
    k := c.index;
    assert found.run.items[k].nodeId == f.ids[k];
  }

  lemma NoCandidates(cfg: Config, f: Frame, found: Found, after: seq<Status>)
    requires Statuses(found.run.items) == after && ItemNodeIds(found.run.items) == f.ids && f.dag == DagOf(cfg.g, f.ids)
    requires FreshBatch(cfg.g, found.run.items, found.candidates)
    requires |after| == |f.dag.on| && forall k :: 0 <= k < |after| && f.dag.on[k] ==> after[k] != Queued
    ensures found.candidates == []
  {
    if found.candidates != [] {
      var k := CandidateIsQueued(cfg, f, found, after);
      assert false;
    }
  }

  // ---------------------------------------------------------------- a whole drain that gets stuck

  /** Everything fails, and one round launches everything the first look finds. */
  ghost predicate Doomed(cfg: Config, f: Frame, run: Run, found: Found) {
    && FrameOf(cfg, f) && Good(cfg, f, Initial(run)) && Fresh(f.dag, Statuses(run.items))
    && LookAt(cfg, 0)(run) == Some(found)
    && cfg.scheduler == Roomy(|found.candidates|) && !cfg.manualTick && cfg.verdicts == AllFail(f.ids)
  }

  ghost predicate StuckAt(cfg: Config, run: Run, states: seq<State>, a: nat) {
    && IsDrain(cfg, run, states) && Ended(states[|states| - 1])
    && a < |states[|states| - 1].run.items| && states[|states| - 1].run.items[a].status == Waiting
  }

  lemma FullRoundWaits(cfg: Config, look: Look, run: Run, found: Found)
    requires look(run) == Some(found) && found.candidates != [] && !cfg.manualTick
    requires MaxConcurrency(cfg) == |found.candidates| && Limit(cfg) > 0
    requires Active(Round(cfg, Initial(run), found)) == |found.candidates| && Round(cfg, Initial(run), found).phase.Racing?
    ensures Body(cfg, look, false, Initial(run)) == Round(cfg, Initial(run), found)
  {
    var t := Round(cfg, Initial(run), found);
    assert Fill(cfg, look, false, t) == t;
  }

  lemma StartIsFirstRound(cfg: Config, f: Frame, run: Run, found: Found)
    requires Doomed(cfg, f, run, found) && found.candidates != []
    ensures Start(cfg, 0, false, run) == Round(cfg, Initial(run), found)
    ensures Start(cfg, 0, false, run).phase.Racing? && Start(cfg, 0, false, run).executed == |found.candidates|
  {
    FirstStatuses(cfg, f, run, found);
    FirstRoundFills(cfg, run, found);
    FullRoundWaits(cfg, LookAt(cfg, 0), run, found);
  }

  lemma HalfwayWeaker(cfg: Config, f: Frame, s: State)
    requires Halfway(cfg, f, s, {Waiting}, {Running})
    ensures Halfway(cfg, f, s, {Queued, Waiting}, {Running, Failed})
  {
  }

  /** The loop goes on once every task has settled. */
  lemma ResumeAll(cfg: Config, f: Frame, s: State, a: nat, b: nat) returns (t: State)
    requires FrameOf(cfg, f) && Halfway(cfg, f, s, {Queued, Waiting}, {Running, Failed})
    requires s.executing == {} && s.settled.Keys != {} && s.phase.Racing? && s.executed < Limit(cfg) && !cfg.manualTick
    requires Inversion(f.dag, a, b)
    ensures Next(cfg, s, t) && Ended(t) && |t.run.items| == |f.ids| && t.run.items[a].status == Waiting
  {
    var seen :| seen in s.settled.Keys;
    var s1 := s.(settled := map[]);
    CollectAll(cfg, f, s, seen);
    LastLook(cfg, f, s1, a, b);
    hide Halfway, LookAt, Body, FrameOf, Inversion, Collect;
    t := Body(cfg, LookAt(cfg, 0), false, s1);
    var input := Resume(seen, s.settled.Keys, 0, false);
    StepIsNext(cfg, s, input);
  }

  lemma CollectAll(cfg: Config, f: Frame, s: State, seen: nat)
    requires Halfway(cfg, f, s, {Queued, Waiting}, {Running, Failed}) && seen in s.settled.Keys
    ensures Collect(s, seen, s.settled.Keys, false) == s.(settled := map[])
    ensures Halfway(cfg, f, s.(settled := map[]), {Queued, Waiting}, {Running, Failed})
  {
    hide Poised, PlainRun, Inv, Untried, NodeFits;
    assert s.settled - s.settled.Keys == map[];
    assert s.settled[seen] == TaskFailed(false);
  }

  lemma AfterFirstRound(cfg: Config, f: Frame, run: Run, found: Found)
    requires Doomed(cfg, f, run, found) && found.candidates != []
    ensures var s := Start(cfg, 0, false, run);
            && Halfway(cfg, f, s, {Queued, Waiting}, {Running, Failed})
            && s.phase.Racing? && s.executed < Limit(cfg) && s.settled == map[] && s.executing != {}
  {
    StartIsFirstRound(cfg, f, run, found);
    FirstRound(cfg, f, run, found);
    HalfwayWeaker(cfg, f, Start(cfg, 0, false, run));
  }

  /** From there every task fails, the loop looks once more and ends with the early node waiting. */
  lemma FailAndEnd(cfg: Config, f: Frame, s: State, a: nat, b: nat) returns (states: seq<State>)
    requires FrameOf(cfg, f) && cfg.verdicts == AllFail(f.ids) && !cfg.manualTick && Inversion(f.dag, a, b)
    requires Halfway(cfg, f, s, {Queued, Waiting}, {Running, Failed})
    requires s.phase.Racing? && s.executed < Limit(cfg) && s.settled == map[] && s.executing != {}
    ensures Linked(states, (x: State, y: State) => Next(cfg, x, y)) && states[0] == s
    ensures var t := states[|states| - 1]; Ended(t) && a < |t.run.items| && t.run.items[a].status == Waiting
  {
    var front := FailAll(cfg, f, s);
    var t := ResumeAll(cfg, f, front[|front| - 1], a, b);
    LinkedSnoc(cfg, front, t);
    states := front + [t];
  }

  lemma StuckAfterFailures(cfg: Config, f: Frame, run: Run, found: Found, a: nat, b: nat) returns (states: seq<State>)
    requires Doomed(cfg, f, run, found) && found.candidates != [] && Inversion(f.dag, a, b)
    ensures StuckAt(cfg, run, states, a)
  {
    AfterFirstRound(cfg, f, run, found);
    states := FailAndEnd(cfg, f, Start(cfg, 0, false, run), a, b);
  }

  lemma StuckAtOnce(cfg: Config, f: Frame, run: Run, found: Found, a: nat, b: nat)
    requires Doomed(cfg, f, run, found) && found.candidates == [] && Inversion(f.dag, a, b)
    ensures StuckAt(cfg, run, [Start(cfg, 0, false, run)], a)
  {
    FirstStatuses(cfg, f, run, found);
    LookNothing(cfg, LookAt(cfg, 0), Initial(run), found);
    assert Linked([Start(cfg, 0, false, run)], (x: State, y: State) => Next(cfg, x, y));
    assert [Start(cfg, 0, false, run)][0] == Start(cfg, 0, false, run);
  }

  lemma DoomedFrame(cfg: Config, itemKey: string, run: Run, rank: map<Id, nat>) returns (found: Found)
    requires FreshRun(cfg.g, itemKey, run) && RankedBy(cfg.g, rank) && !cfg.manualTick
    requires cfg.verdicts == AllFail(ItemNodeIds(run.items))
    ensures LookAt(cfg, 0)(run) == Some(found)
    ensures cfg.scheduler == Roomy(|found.candidates|) ==> Doomed(cfg, FrameFor(cfg, itemKey, run, rank), run, found)
  {
    var f := FrameFor(cfg, itemKey, run, rank);
    FrameIsFrame(cfg, itemKey, run, rank);
    FreshIsReady(cfg, itemKey, run);
    InitialGood(cfg, itemKey, run, rank);
    FirstPass(f.dag, f.rank, Statuses(run.items), 0);
    LookByPosition(cfg, 0, f.ids, f.itemKey, run);
    found := LookAt(cfg, 0)(run).value;
  }

  /** The scheduler settings do not change what looking finds. */
  lemma SameLook(cfg: Config, scheduler: Scheduler, run: Run)
    ensures LookAt(cfg.(scheduler := scheduler), 0)(run) == LookAt(cfg, 0)(run)
  {
  }

  lemma StuckBreaksIt(cfg: Config, itemKey: string, run: Run, rank: map<Id, nat>, states: seq<State>, a: nat)
    requires Ready(cfg, itemKey, run) && RankedBy(cfg.g, rank) && StuckAt(cfg, run, states, a)
    requires a < |run.items| && Enabled(cfg.g, run.items[a].nodeId)
    ensures !NeverStuck(cfg.g, run)
  {
    var last, legs := states[|states| - 1], [Leg(cfg, states)];
    hide IsDrain, Ready, RankedBy, AtRest, Later, Underway, Inv;
    OneDrain(cfg, run, states);
    ChainFine(cfg, itemKey, run, rank, legs, 0);
    SamePositions(cfg, itemKey, run, rank, last);
    assert EndState(cfg, run, legs) == last;
    assert !AllSettled(cfg.g, last.run.items);
  }

  /** If a node that can be skipped is listed before one it depends on, some drain leaves it waiting. */
  lemma BadOrderCanStick(g: Graph, itemKey: string, run: Run, rank: map<Id, nat>)
    requires FreshRun(g, itemKey, run) && RankedBy(g, rank) && ListedTooEarly(g, ItemNodeIds(run.items))
    ensures !NeverStuck(g, run)
  {
    var base := Config(g, Roomy(0), [], false, AllFail(ItemNodeIds(run.items)));
    var found := DoomedFrame(base, itemKey, run, rank);
    var cfg := base.(scheduler := Roomy(|found.candidates|));
    SameLook(base, cfg.scheduler, run);
    var same := DoomedFrame(cfg, itemKey, run, rank);
    var f := FrameFor(cfg, itemKey, run, rank);
    InversionByName(g, f.ids);
    var a, b :| 0 <= a < |f.dag.on| && b in f.dag.sources[a] && Inversion(f.dag, a, b);
    var states := [Start(cfg, 0, false, run)];
    if found.candidates == [] {
      StuckAtOnce(cfg, f, run, found, a, b);
    } else {
      states := StuckAfterFailures(cfg, f, run, found, a, b);
    }
    assert ItemNodeIds(run.items)[a] == f.ids[a];
    FreshIsReady(cfg, itemKey, run);
    StuckBreaksIt(cfg, itemKey, run, rank, states, a);
  }

  /**
   * In the fragment drains of a seeded run, the last of which ends of itself, give every enabled item an outcome,
   * exactly when no node that can be skipped is listed before such a node it depends on.
   */
  lemma StuckExactly(g: Graph, itemKey: string, run: Run, rank: map<Id, nat>)
    requires FreshRun(g, itemKey, run) && RankedBy(g, rank)
    ensures NeverStuck(g, run) <==> !ListedTooEarly(g, ItemNodeIds(run.items))
  {
    hide FreshRun, RankedBy, ListedTooEarly, IsChain, Ready;
    if ListedTooEarly(g, ItemNodeIds(run.items)) {
      BadOrderCanStick(g, itemKey, run, rank);
    } else {
      forall cfg: Config, legs: seq<Leg> | cfg.g == g && IsChain(cfg, run, legs) && Ended(EndState(cfg, run, legs))
        ensures AllSettled(g, EndState(cfg, run, legs).run.items)
      {
        FreshIsReady(cfg, itemKey, run);
        GoodOrderSettles(cfg, itemKey, run, rank, legs);
      }
    }
  }

  /** In particular with items listed in topological order. */
  lemma TopologicalOrderNeverSticks(g: Graph, itemKey: string, run: Run, rank: map<Id, nat>)
    requires FreshRun(g, itemKey, run) && RankedBy(g, rank)
    requires var ids := ItemNodeIds(run.items); forall a, b :: 0 <= a < b < |ids| ==> !HasEdge(g, ids[b], ids[a])
    ensures NeverStuck(g, run)
  {
    assert !ListedTooEarly(g, ItemNodeIds(run.items));
    StuckExactly(g, itemKey, run, rank);
  }
}
