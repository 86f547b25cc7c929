/** Accepted workflows without groups, routes and conditions are in the plain fragment, and so are their seeded runs. */
module PlainWorkflows {
  import opened Common
  import opened Digraph
  import opened Workflow
  import opened WorkflowGraph
  import opened Acyclicity
  import opened Validate
  import opened StateMachine
  import opened RunModel
  import opened Retry
  import opened Drain
  import opened DrainTasks
  import opened Scheduling
  import opened Fragment
  import opened PlainRuns
  import opened DrainOutcome
  import opened DrainResults
  import opened StuckDrains

  ghost predicate PlainWorkflow(w: Definition) {
    && w.nodes != []
    && w.groups == []
    && (forall n :: n in w.nodes ==> (n.parallelGroupId.None? || n.parallelGroupId.value == "") && n.routeAllowed.None?)
    && (forall e :: e in w.edges ==> e.when.None?)
  }

  /** A run of the workflow's nodes that has no items yet. */
  ghost predicate Unseeded(w: Definition, run: Run) {
    run.items == [] && NodeRunIds(run.nodes) == NodeIds(w.nodes)
  }

  lemma NoGroupsInferred(w: Definition)
    requires PlainWorkflow(w)
    ensures Build(w).groups == []
  {
    var explicit := Filter(w.groups, (g: Group) => |g.members| >= 2);
    var seen := set g | g in explicit :: g.id;
    FilterNone(w.nodes, (n: Node) => NamesGroup(n, seen));
    assert InferredGroups(w.nodes, seen) == [];
  }

  lemma AcceptedEndpoints(w: Definition, e: Link)
    requires Accepts(w) && w.groups == [] && e in w.edges
    ensures e.from in NodeIds(w.nodes) && e.to in NodeIds(w.nodes)
  {
    NoNodesNoEdges(w);
    assert NodeIds(w.nodes) + GroupIds(w.groups) == NodeIds(w.nodes);
  }

  lemma AcceptedIsPlain(w: Definition)
    requires Accepts(w) && PlainWorkflow(w)
    ensures PlainGraph(Build(w), NodeIds(w.nodes))
  {
    NoGroupsInferred(w);
    DistinctNodes(w);
    forall e | e in w.edges ensures e.when.None? && !Cross(Build(w), e) && e.from in NodeIds(w.nodes) {
      AcceptedNeverCross(w, e);
      AcceptedEndpoints(w, e);
    }
  }

  lemma DistinctNodes(w: Definition)
    requires Accepts(w)
    ensures Distinct(NodeIds(w.nodes))
  {
  }

  // ---------------------------------------------------------------- ranks

  function IndexIn(order: seq<Id>, id: Id): (k: nat)
    requires id in order
    ensures k < |order| && order[k] == id && id !in order[..k]
  {
    if order[0] == id then 0
    else
      assert order == [order[0]] + order[1..];
      var k := 1 + IndexIn(order[1..], id);
      assert order[..k] == [order[0]] + order[1..][..k - 1];
      k
  }

  /** An accepted workflow ranks the source of every edge below its target. */
  lemma AcceptedIsRanked(w: Definition) returns (rank: map<Id, nat>)
    requires Accepts(w)
    ensures RankedBy(Build(w), rank)
  {
    var order := AcceptedHasOrder(w);
    rank := map id | id in order :: IndexIn(order, id);
    NoNodesNoEdges(w);
    forall e | e in w.edges ensures e.from in rank && e.to in rank && rank[e.from] < rank[e.to] {
      assert e.from in ToSet(order) && e.to in ToSet(order);
      EarlierIndex(w.edges, order, e);
    }
  }

  lemma EarlierIndex(edges: seq<Link>, order: seq<Id>, e: Link)
    requires Topological(edges, order) && e in edges && e.from in order && e.to in order
    ensures IndexIn(order, e.from) < IndexIn(order, e.to)
  {
    var j := IndexIn(order, e.to);
    assert e.from in order[..j];
    var i :| 0 <= i < j && order[i] == e.from;
    assert IndexIn(order, e.from) == i;
  }

  // ---------------------------------------------------------------- seeding

  lemma {:induction false} SeedIds(g: Graph, ids: seq<Id>, itemKey: string)
    ensures ItemNodeIds(SeedItems(g, ids, [itemKey])) == ids
    ensures forall i :: 0 <= i < |ids| ==> SeedItems(g, ids, [itemKey])[i] == FreshItem(g, ids[i], itemKey)
  {
    if ids == [] {
    } else {
      SeedIds(g, ids[1..], itemKey);
      assert SeedForNode(g, ids[0], [itemKey]) == [FreshItem(g, ids[0], itemKey)];
      assert SeedItems(g, ids, [itemKey]) == [FreshItem(g, ids[0], itemKey)] + SeedItems(g, ids[1..], [itemKey]);
    }
  }

  lemma SeededIsFresh(g: Graph, ids: seq<Id>, itemKey: string, run: Run)
    requires PlainGraph(g, ids) && ids != [] && ItemNodeIds(run.items) == ids && NodeRunIds(run.nodes) == ids && run.groups == []
    requires forall i :: 0 <= i < |ids| ==> run.items[i] == FreshItem(g, ids[i], itemKey)
    ensures FreshRun(g, itemKey, run)
  {
    var dag := DagOf(g, ids);
    forall i | 0 <= i < |ids| ensures Subjects(run.items)[i].0 in NodeRunIds(run.nodes) {
      assert Subjects(run.items)[i].0 == ids[i];
    }
    forall i | 0 <= i < |ids|
      ensures Statuses(run.items)[i] in (if dag.on[i] then {Queued, Blocked, Waiting} else {Queued, Blocked, Waiting, Skipped})
    {
      assert Statuses(run.items)[i] == InitialItemStatus(g, ids[i]);
    }
  }

  /** Seeding a run of an accepted plain workflow for one item key gives a fresh run, in the order of the nodes. */
  lemma AcceptedRunIsFresh(w: Definition, itemKey: string, run: Run)
    requires Accepts(w) && PlainWorkflow(w) && Unseeded(w, run)
    ensures var r := EnsureItems(Build(w), [itemKey], run);
            FreshRun(Build(w), itemKey, r) && ItemNodeIds(r.items) == NodeIds(w.nodes)
  {
    var g, r := Build(w), EnsureItems(Build(w), [itemKey], run);
    AcceptedIsPlain(w);
    NoGroupsInferred(w);
    SeedIds(g, NodeIds(w.nodes), itemKey);
    SeededIsFresh(g, NodeIds(w.nodes), itemKey, r);
  }

  /**
   * From validation to the end: seed a run of any accepted plain workflow and drain it, once or several times,
   * with any settings and verdicts in any interleaving.  No transition raises, and if the last drain ends of
   * itself every node has the result of evaluating the workflow.
   */
  lemma AcceptedWorkflowsDrain(w: Definition, itemKey: string, run: Run, cfg: Config, legs: seq<Leg>) returns (rank: map<Id, nat>)
    requires Accepts(w) && PlainWorkflow(w) && Unseeded(w, run) && cfg.g == Build(w)
    requires IsChain(cfg, EnsureItems(cfg.g, [itemKey], run), legs)
    ensures RankedBy(cfg.g, rank)
    ensures forall k, m :: 0 <= k < |legs| && 0 <= m < |legs[k].states| ==> !legs[k].states[m].phase.Crashed?
    ensures var last := EndState(cfg, EnsureItems(cfg.g, [itemKey], run), legs);
            Ended(last) ==>
              && |last.run.items| == |w.nodes|
              && forall i :: 0 <= i < |w.nodes| ==>
                   && last.run.items[i].nodeId == w.nodes[i].id
                   && ItemResult(cfg.g, last.run.items[i]) == NodeResult(cfg.g, rank, cfg.verdicts, w.nodes[i].id)
  {
    hide Accepts, IsChain, RankedBy, FreshRun, Ready, EnsureItems;
    var seeded := EnsureItems(cfg.g, [itemKey], run);
    AcceptedRunIsFresh(w, itemKey, run);
    FreshIsReady(cfg, itemKey, seeded);
    rank := AcceptedIsRanked(w);
    forall k, m | 0 <= k < |legs| && 0 <= m < |legs[k].states| ensures !legs[k].states[m].phase.Crashed? {
      NoTransitionRaises(cfg, itemKey, seeded, rank, legs, k, m);
    }
    if Ended(EndState(cfg, seeded, legs)) {
      AllEvaluate(cfg, itemKey, seeded, rank, legs, w);
    }
  }

  lemma AllEvaluate(cfg: Config, itemKey: string, run: Run, rank: map<Id, nat>, legs: seq<Leg>, w: Definition)
    requires Ready(cfg, itemKey, run) && RankedBy(cfg.g, rank) && IsChain(cfg, run, legs) && Ended(EndState(cfg, run, legs))
    requires ItemNodeIds(run.items) == NodeIds(w.nodes) && run.items != []
    ensures var items := EndState(cfg, run, legs).run.items;
            && |items| == |w.nodes|
            && forall i :: 0 <= i < |w.nodes| ==>
                 && items[i].nodeId == w.nodes[i].id
                 && ItemResult(cfg.g, items[i]) == NodeResult(cfg.g, rank, cfg.verdicts, w.nodes[i].id)
  {
    hide Ready, RankedBy, IsChain, NodeResult, ItemResult, Ended;
    DrainEvaluates(cfg, itemKey, run, rank, legs, 0);
    var items := EndState(cfg, run, legs).run.items;
    forall i | 0 <= i < |w.nodes|
      ensures items[i].nodeId == w.nodes[i].id
      ensures ItemResult(cfg.g, items[i]) == NodeResult(cfg.g, rank, cfg.verdicts, w.nodes[i].id)
    {
      DrainEvaluates(cfg, itemKey, run, rank, legs, i);
      assert run.items[i].nodeId == ItemNodeIds(run.items)[i] == w.nodes[i].id;
    }
  }

  /** Such a workflow can leave a node waiting exactly when its node list breaks the order that skipping needs. */
  lemma AcceptedWorkflowsStick(w: Definition, itemKey: string, run: Run)
    requires Accepts(w) && PlainWorkflow(w) && Unseeded(w, run)
    ensures NeverStuck(Build(w), EnsureItems(Build(w), [itemKey], run)) <==> !ListedTooEarly(Build(w), NodeIds(w.nodes))
  {
    var rank := AcceptedIsRanked(w);
    AcceptedRunIsFresh(w, itemKey, run);
    StuckExactly(Build(w), itemKey, EnsureItems(Build(w), [itemKey], run), rank);
  }
}
