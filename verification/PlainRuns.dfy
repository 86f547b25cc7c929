/** Runs of the plain fragment, and the readiness pass on them as a pass over indices. */
module PlainRuns {
  import opened Common
  import opened Digraph
  import opened Workflow
  import opened WorkflowGraph
  import opened StateMachine
  import opened RunModel
  import opened Retry
  import opened Readiness
  import opened Fragment
  import opened LaunchSafety
  import opened Drain
  import opened DrainTasks
  import opened Scheduling

  function ItemNodeIds(items: seq<ItemRun>): (r: seq<Id>)
    ensures |r| == |items| && forall i :: 0 <= i < |items| ==> r[i] == items[i].nodeId
  {
    seq(|items|, i requires 0 <= i < |items| => items[i].nodeId)
  }

  function Statuses(items: seq<ItemRun>): (r: seq<Status>)
    ensures |r| == |items| && forall i :: 0 <= i < |items| ==> r[i] == items[i].status
  {
    seq(|items|, i requires 0 <= i < |items| => items[i].status)
  }

  ghost predicate HasEdge(g: Graph, x: Id, y: Id) {
    exists e :: e in g.definition.edges && e.from == x && e.to == y
  }

  /** The dependency structure of the nodes `ids`, by position. */
  ghost function DagOf(g: Graph, ids: seq<Id>): (dag: Dag)
    ensures dag.Shaped() && |dag.on| == |ids|
  {
    Dag(seq(|ids|, i requires 0 <= i < |ids| => Enabled(g, ids[i])),
        seq(|ids|, i requires 0 <= i < |ids| => WaitsForAny(g, ids[i])),
        seq(|ids|, i requires 0 <= i < |ids| => set j: nat | 0 <= j < |ids| && HasEdge(g, ids[j], ids[i])))
  }

  /** No groups, no conditions, no routing, no branch crossings, one item per node and an item for every source. */
  ghost predicate PlainGraph(g: Graph, ids: seq<Id>) {
    && NodesOnly(g)
    && Distinct(ids)
    && forall e :: e in g.definition.edges ==> e.when.None? && !Cross(g, e) && e.from in ids
  }

  /** One item key and nobody asleep. */
  ghost predicate PlainItems(items: seq<ItemRun>, itemKey: string) {
    forall i :: 0 <= i < |items| ==> items[i].itemKey == itemKey && items[i].wakeAt == NoWake
  }

  lemma NoRouting(g: Graph, id: Id)
    requires NodesOnly(g)
    ensures !IsRouteNode(g, id) && !IsGroup(g, id) && OwnerGroup(g, id).None?
  {
  }

  lemma PositionOf(items: seq<ItemRun>, itemKey: string, j: nat)
    requires PlainItems(items, itemKey) && Distinct(ItemNodeIds(items)) && j < |items|
    ensures ItemIndex(items, items[j].nodeId, itemKey) == j
  {
    var ids := ItemNodeIds(items);
    assert forall k :: 0 <= k < j ==> ids[k] != ids[j];
  }

  // ---------------------------------------------------------------- dependencies by position

  lemma EdgeByPosition(g: Graph, items: seq<ItemRun>, groupItems: seq<GroupItemRun>, itemKey: string, e: Link, j: nat)
    requires PlainGraph(g, ItemNodeIds(items)) && PlainItems(items, itemKey)
    requires e in g.definition.edges && j < |items| && e.from == items[j].nodeId
    ensures var dag := DagOf(g, ItemNodeIds(items));
            && (Satisfied(g, items, groupItems, itemKey, e) <==> Met(dag, Statuses(items), j))
            && (Impossible(g, items, groupItems, itemKey, e) <==> Dead(dag, Statuses(items), j))
  {
    NoRouting(g, e.from);
    PositionOf(items, itemKey, j);
  }

  lemma SourceOfEdge(g: Graph, ids: seq<Id>, i: nat, e: Link) returns (j: nat)
    requires PlainGraph(g, ids) && i < |ids| && e in Incoming(g.definition.edges, ids[i])
    ensures j in DagOf(g, ids).sources[i] && ids[j] == e.from
  {
    j :| 0 <= j < |ids| && ids[j] == e.from;
    assert HasEdge(g, ids[j], ids[i]);
  }

  lemma EdgeOfSource(g: Graph, ids: seq<Id>, i: nat, j: nat) returns (e: Link)
    requires i < |ids| && j in DagOf(g, ids).sources[i]
    ensures e in Incoming(g.definition.edges, ids[i]) && e.from == ids[j]
  {
    assert HasEdge(g, ids[j], ids[i]);
    e :| e in g.definition.edges && e.from == ids[j] && e.to == ids[i];
  }

  lemma NoSources(g: Graph, ids: seq<Id>, i: nat)
    requires PlainGraph(g, ids) && i < |ids|
    ensures Incoming(g.definition.edges, ids[i]) == [] <==> DagOf(g, ids).sources[i] == {}
  {
    var incoming, sources := Incoming(g.definition.edges, ids[i]), DagOf(g, ids).sources[i];
    if incoming != [] {
      var j := SourceOfEdge(g, ids, i, incoming[0]);
    }
    if sources != {} {
      var j :| j in sources;
      var e := EdgeOfSource(g, ids, i, j);
    }
  }

  // ---------------------------------------------------------------- only the kinds of answers matter

  datatype Answer = Yes | Never | Open

  function Decide(any: bool, answers: set<Answer>): Outcome {
    if any then if Yes in answers then ToQueue else if Open !in answers then ToSkip else ToWait
    else if answers <= {Yes} then ToQueue else if Open !in answers then ToSkip else ToWait
  }

  function EdgeAnswer(g: Graph, items: seq<ItemRun>, groupItems: seq<GroupItemRun>, itemKey: string, e: Link): Answer {
    if Satisfied(g, items, groupItems, itemKey, e) then Yes
    else if Impossible(g, items, groupItems, itemKey, e) then Never else Open
  }

  function SourceAnswer(dag: Dag, st: seq<Status>, j: nat): Answer
    requires Fits(dag, st) && j < |st|
  {
    if Met(dag, st, j) then Yes else if Dead(dag, st, j) then Never else Open
  }

  ghost predicate EdgeAnswers(g: Graph, items: seq<ItemRun>, groupItems: seq<GroupItemRun>, itemKey: string,
                              incoming: seq<Link>, answers: set<Answer>) {
    forall a :: a in answers <==> exists e :: e in incoming && EdgeAnswer(g, items, groupItems, itemKey, e) == a
  }

  ghost predicate SourceAnswers(dag: Dag, st: seq<Status>, i: nat, answers: set<Answer>)
    requires Fits(dag, st) && i < |st|
  {
    forall a :: a in answers <==> exists j :: j in dag.sources[i] && SourceAnswer(dag, st, j) == a
  }

  lemma OutcomeDecided(g: Graph, items: seq<ItemRun>, groupItems: seq<GroupItemRun>, itemKey: string, incoming: seq<Link>,
                       any: bool, answers: set<Answer>)
    requires EdgeAnswers(g, items, groupItems, itemKey, incoming, answers)
    ensures DependencyOutcome(g, items, groupItems, itemKey, incoming, any) == Decide(any, answers)
  {
    assert Yes in answers <==> exists e :: e in incoming && EdgeAnswer(g, items, groupItems, itemKey, e) == Yes;
    assert Never in answers <==> exists e :: e in incoming && EdgeAnswer(g, items, groupItems, itemKey, e) == Never;
    assert Open in answers <==> exists e :: e in incoming && EdgeAnswer(g, items, groupItems, itemKey, e) == Open;
    assert answers <= {Yes} <==> Never !in answers && Open !in answers;
  }

  lemma JudgeDecided(dag: Dag, st: seq<Status>, i: nat, answers: set<Answer>)
    requires Fits(dag, st) && i < |st| && SourceAnswers(dag, st, i, answers)
    ensures Judge(dag, st, i) == Decide(dag.any[i], answers)
  {
    assert Yes in answers <==> exists j :: j in dag.sources[i] && SourceAnswer(dag, st, j) == Yes;
    assert Never in answers <==> exists j :: j in dag.sources[i] && SourceAnswer(dag, st, j) == Never;
    assert Open in answers <==> exists j :: j in dag.sources[i] && SourceAnswer(dag, st, j) == Open;
    assert answers <= {Yes} <==> Never !in answers && Open !in answers;
  }

  lemma EdgeAnswerKnown(g: Graph, items: seq<ItemRun>, groupItems: seq<GroupItemRun>, itemKey: string, i: nat, e: Link) returns (j: nat)
    requires PlainGraph(g, ItemNodeIds(items)) && PlainItems(items, itemKey) && i < |items|
    requires e in Incoming(g.definition.edges, items[i].nodeId)
    ensures var dag := DagOf(g, ItemNodeIds(items));
            j in dag.sources[i] && SourceAnswer(dag, Statuses(items), j) == EdgeAnswer(g, items, groupItems, itemKey, e)
  {
    j := SourceOfEdge(g, ItemNodeIds(items), i, e);
    EdgeByPosition(g, items, groupItems, itemKey, e, j);
  }

  lemma SourceAnswerGiven(g: Graph, items: seq<ItemRun>, groupItems: seq<GroupItemRun>, itemKey: string, i: nat, j: nat) returns (e: Link)
    requires PlainGraph(g, ItemNodeIds(items)) && PlainItems(items, itemKey) && i < |items|
    requires j in DagOf(g, ItemNodeIds(items)).sources[i]
    ensures e in Incoming(g.definition.edges, items[i].nodeId)
    ensures SourceAnswer(DagOf(g, ItemNodeIds(items)), Statuses(items), j) == EdgeAnswer(g, items, groupItems, itemKey, e)
  {
    e := EdgeOfSource(g, ItemNodeIds(items), i, j);
    EdgeByPosition(g, items, groupItems, itemKey, e, j);
  }

  lemma AnswersAgree(g: Graph, items: seq<ItemRun>, groupItems: seq<GroupItemRun>, itemKey: string, i: nat, a: Answer)
    requires PlainGraph(g, ItemNodeIds(items)) && PlainItems(items, itemKey) && i < |items|
    ensures var dag, st := DagOf(g, ItemNodeIds(items)), Statuses(items);
            (exists j :: j in dag.sources[i] && SourceAnswer(dag, st, j) == a) <==>
            (exists e :: e in Incoming(g.definition.edges, items[i].nodeId) && EdgeAnswer(g, items, groupItems, itemKey, e) == a)
  {
    var dag, st := DagOf(g, ItemNodeIds(items)), Statuses(items);
    if j :| j in dag.sources[i] && SourceAnswer(dag, st, j) == a {
      var e := SourceAnswerGiven(g, items, groupItems, itemKey, i, j);
    } else if e :| e in Incoming(g.definition.edges, items[i].nodeId) && EdgeAnswer(g, items, groupItems, itemKey, e) == a {
      var j := EdgeAnswerKnown(g, items, groupItems, itemKey, i, e);
    }
  }

  lemma OutcomeByPosition(g: Graph, items: seq<ItemRun>, groupItems: seq<GroupItemRun>, itemKey: string, i: nat)
    requires PlainGraph(g, ItemNodeIds(items)) && PlainItems(items, itemKey) && i < |items|
    ensures DependencyOutcome(g, items, groupItems, itemKey, Incoming(g.definition.edges, items[i].nodeId),
                              WaitsForAny(g, items[i].nodeId))
              == Judge(DagOf(g, ItemNodeIds(items)), Statuses(items), i)
  {
    var dag, st := DagOf(g, ItemNodeIds(items)), Statuses(items);
    var answers := set j | j in dag.sources[i] :: SourceAnswer(dag, st, j);
    forall a
      ensures a in answers <==>
                exists e :: e in Incoming(g.definition.edges, items[i].nodeId) && EdgeAnswer(g, items, groupItems, itemKey, e) == a
    {
      AnswersAgree(g, items, groupItems, itemKey, i, a);
    }
    OutcomeDecided(g, items, groupItems, itemKey, Incoming(g.definition.edges, items[i].nodeId), WaitsForAny(g, items[i].nodeId), answers);
    JudgeDecided(dag, st, i, answers);
  }

  // ---------------------------------------------------------------- the pass by position

  /** `after` is `items` with statuses `st`. */
  ghost predicate Restated(items: seq<ItemRun>, after: seq<ItemRun>, st: seq<Status>) {
    && |after| == |items| == |st|
    && forall k :: 0 <= k < |items| ==> after[k] == items[k].(status := st[k])
  }

  lemma RestatedFacts(items: seq<ItemRun>, after: seq<ItemRun>, st: seq<Status>, itemKey: string)
    requires Restated(items, after, st)
    ensures ItemNodeIds(after) == ItemNodeIds(items) && Statuses(after) == st && Subjects(after) == Subjects(items)
    ensures PlainItems(items, itemKey) ==> PlainItems(after, itemKey)
  {
  }

  lemma TurnByPosition(g: Graph, items: seq<ItemRun>, groupItems: seq<GroupItemRun>, itemKey: string, i: nat)
    requires PlainGraph(g, ItemNodeIds(items)) && PlainItems(items, itemKey) && i < |items|
    ensures ReadyItem(g, items, groupItems, items[i]) ==
              match Turn(DagOf(g, ItemNodeIds(items)), Statuses(items), i)
              case None => None
              case Some(s) => Some(items[i].(status := s))
  {
    var x := items[i];
    NoRouting(g, x.nodeId);
    NoSources(g, ItemNodeIds(items), i);
    OutcomeByPosition(g, items, groupItems, itemKey, i);
    assert x.(wakeAt := NoWake) == x;
  }

  lemma OneRestated(items: seq<ItemRun>, i: nat, s: Status, itemKey: string)
    requires PlainItems(items, itemKey) && i < |items|
    ensures var next := items[i := items[i].(status := s)];
            && Statuses(next) == Statuses(items)[i := s] && ItemNodeIds(next) == ItemNodeIds(items) && PlainItems(next, itemKey)
  {
  }

  /** The pass over items is the pass over positions, raises included. */
  lemma {:induction false} PassByPosition(g: Graph, items: seq<ItemRun>, groupItems: seq<GroupItemRun>, itemKey: string, i: nat)
    requires PlainGraph(g, ItemNodeIds(items)) && PlainItems(items, itemKey) && i <= |items|
    ensures var found, st := ReadyFrom(g, groupItems, items, i), PassFrom(DagOf(g, ItemNodeIds(items)), Statuses(items), i);
            && (found.Some? <==> st.Some?)
            && (st.Some? ==> Restated(items, found.value, st.value))
    decreases |items| - i
  {
    if i == |items| {
    } else {
      var turn := Turn(DagOf(g, ItemNodeIds(items)), Statuses(items), i);
      TurnByPosition(g, items, groupItems, itemKey, i);
      if turn.Some? {
        var next := items[i := items[i].(status := turn.value)];
        OneRestated(items, i, turn.value, itemKey);
        PassByPosition(g, next, groupItems, itemKey, i + 1);
      }
    }
  }

  /** A seeded run of the plain fragment over the nodes `ids`. */
  ghost predicate PlainRun(g: Graph, ids: seq<Id>, itemKey: string, run: Run) {
    PlainGraph(g, ids) && ItemNodeIds(run.items) == ids && PlainItems(run.items, itemKey) && Known(run) && run.groups == []
  }

  /** Every node has the status of its item. */
  ghost predicate NodesFollow(nodes: seq<NodeRun>, items: seq<ItemRun>) {
    forall k, i :: 0 <= k < |nodes| && 0 <= i < |items| && nodes[k].id == items[i].nodeId ==> nodes[k].status == items[i].status
  }

  /** One item per node: its status is the aggregate. */
  lemma SyncedNodesFollow(nodes: seq<NodeRun>, items: seq<ItemRun>)
    requires Distinct(ItemNodeIds(items))
    ensures NodesFollow(SyncNodes(nodes, items), items)
  {
    forall k, i | 0 <= k < |nodes| && 0 <= i < |items| && nodes[k].id == items[i].nodeId
      ensures SyncNodes(nodes, items)[k].status == items[i].status
    {
      var related := Filter(items, (x: ItemRun) => x.nodeId == nodes[k].id);
      OnlyItem(items, related, i);
    }
  }

  lemma OnlyItem(items: seq<ItemRun>, related: seq<ItemRun>, i: nat)
    requires Distinct(ItemNodeIds(items)) && i < |items|
    requires forall x :: x in related <==> x in items && x.nodeId == items[i].nodeId
    ensures related != [] && Aggregate(related) == items[i].status
  {
    assert items[i] in related;
    var r :| 0 <= r < |related| && related[r].status == Aggregate(related);
    assert related[r] in related;
    var j :| 0 <= j < |items| && items[j] == related[r];
    assert ItemNodeIds(items)[j] == ItemNodeIds(items)[i];
  }

  /** What looking finds: the statuses after a pass, nodes that follow, and as candidates exactly the enabled queued items. */
  ghost predicate Finds(g: Graph, ids: seq<Id>, run: Run, st: seq<Status>, found: Found) {
    && Restated(run.items, found.run.items, st)
    && NodeRunIds(found.run.nodes) == NodeRunIds(run.nodes)
    && NodesFollow(found.run.nodes, found.run.items)
    && found.run.groups == []
    && FreshBatch(g, found.run.items, found.candidates)
    && (forall k :: 0 <= k < |ids| && |st| == |ids| && st[k] == Queued && Enabled(g, ids[k]) ==> NodeItem(k) in found.candidates)
  }

  lemma NobodyDue(items: seq<ItemRun>, itemKey: string, now: int)
    requires PlainItems(items, itemKey)
    ensures !exists x :: x in items && Due(now, x)
  {
  }

  lemma GroupPassIdle(g: Graph, run: Run)
    requires g.groups == []
    ensures GroupPass(g, run) == Completed(run.(groups := [], groupItems := []))
  {
    FilterNone(run.groupItems, (x: GroupItemRun) => x.groupId in GroupIds(g.groups));
  }

  /** The run that a pass over positions leaves. */
  ghost predicate Passed(run: Run, st: seq<Status>, after: Run) {
    && Restated(run.items, after.items, st)
    && after.nodes == SyncNodes(run.nodes, after.items)
    && after.groupItems == [] && after.groups == []
  }

  lemma ItemPassByPosition(g: Graph, itemKeys: seq<string>, now: int, ids: seq<Id>, itemKey: string, run: Run)
    requires PlainRun(g, ids, itemKey, run)
    ensures var passed, st := ItemPass(g, itemKeys, now, run), PassFrom(DagOf(g, ids), Statuses(run.items), 0);
            && (passed.Completed? <==> st.Some?)
            && (st.Some? ==> Restated(run.items, passed.run.items, st.value) && passed.run.nodes == SyncNodes(run.nodes, passed.run.items))
  {
    EnsureKeepsItems(g, itemKeys, run);
    NobodyDue(run.items, itemKey, now);
    PassByPosition(g, run.items, EnsureItems(g, itemKeys, run).groupItems, itemKey, 0);
    hide PassFrom, ReadyFrom, DagOf, Known, SyncNodes, EnsureItems;
  }

  /** The readiness pass on a plain run is a pass over positions, and raises exactly if that one does. */
  lemma PassCompletes(g: Graph, itemKeys: seq<string>, now: int, ids: seq<Id>, itemKey: string, run: Run)
    requires PlainRun(g, ids, itemKey, run)
    ensures var passed, st := ReadinessPass(g, itemKeys, now, run), PassFrom(DagOf(g, ids), Statuses(run.items), 0);
            && (passed.Completed? <==> st.Some?)
            && (st.Some? ==> Passed(run, st.value, passed.run))
  {
    ItemPassByPosition(g, itemKeys, now, ids, itemKey, run);
    hide ItemPass, PassFrom, DagOf, Known, SyncNodes, GroupPass;
    if ItemPass(g, itemKeys, now, run).Completed? { GroupPassIdle(g, ItemPass(g, itemKeys, now, run).run); }
  }

  lemma PassedFacts(g: Graph, ids: seq<Id>, itemKey: string, run: Run, st: seq<Status>, after: Run)
    requires PlainRun(g, ids, itemKey, run) && Passed(run, st, after)
    ensures PlainRun(g, ids, itemKey, after) && NodeRunIds(after.nodes) == NodeRunIds(run.nodes)
    ensures NodesFollow(after.nodes, after.items)
  {
    RestatedFacts(run.items, after.items, st, itemKey);
    SyncKeepsShape(run, after.nodes, after.items);
    KnownAfter(run, after);
    SyncedNodesFollow(run.nodes, after.items);
  }

  lemma QueuedAreCandidates(g: Graph, ids: seq<Id>, run: Run, k: nat)
    requires NodesOnly(g) && Known(run) && k < |run.items| && run.items[k].status == Queued && Enabled(g, run.items[k].nodeId)
    ensures NodeItem(k) in Candidates(g, run)
  {
    NoRouting(g, run.items[k].nodeId);
    assert Subjects(run.items)[k].0 in NodeRunIds(run.nodes);
    var n :| 0 <= n < |run.nodes| && NodeRunIds(run.nodes)[n] == run.items[k].nodeId;
    assert run.nodes[n] in run.nodes;
    assert Runnable(g, run, run.items[k]);
    assert NodeItem(k) in NodeCandidates(g, run, 0);
  }

  /** Looking at a plain run is a pass over positions. */
  lemma LookByPosition(cfg: Config, now: int, ids: seq<Id>, itemKey: string, run: Run)
    requires PlainRun(cfg.g, ids, itemKey, run) && PassFrom(DagOf(cfg.g, ids), Statuses(run.items), 0).Some?
    ensures LookAt(cfg, now)(run).Some?
    ensures Finds(cfg.g, ids, run, PassFrom(DagOf(cfg.g, ids), Statuses(run.items), 0).value, LookAt(cfg, now)(run).value)
  {
    hide ReadinessPass, PassFrom, DagOf, SyncNodes;
    PassCompletes(cfg.g, cfg.itemKeys, now, ids, itemKey, run);
    var after := ReadinessPass(cfg.g, cfg.itemKeys, now, run).run;
    var st := PassFrom(DagOf(cfg.g, ids), Statuses(run.items), 0).value;
    PassedFacts(cfg.g, ids, itemKey, run, st, after);
    RestatedFacts(run.items, after.items, st, itemKey);
    CandidatesAreFresh(cfg, after);
    forall k | 0 <= k < |ids| && st[k] == Queued && Enabled(cfg.g, ids[k]) ensures NodeItem(k) in Candidates(cfg.g, after) {
      QueuedAreCandidates(cfg.g, ids, after, k);
    }
  }

  // ---------------------------------------------------------------- items in topological order

  /** With items in topological order a completed pass has nothing left to do: a second one changes nothing in the run. */
  lemma PassIsIdempotent(g: Graph, itemKeys: seq<string>, now: int, ids: seq<Id>, itemKey: string, ok: seq<bool>, run: Run, after: Run)
    requires PlainRun(g, ids, itemKey, run) && Inv(DagOf(g, ids), ok, Statuses(run.items))
    requires forall a, b :: 0 <= a <= b < |ids| ==> !HasEdge(g, ids[b], ids[a])
    requires ReadinessPass(g, itemKeys, now, run) == Completed(after)
    ensures ReadinessPass(g, itemKeys, now, after) == Completed(after)
  {
    hide ReadinessPass, PassFrom, SyncNodes, Known, Inv, NodesFollow, PlainGraph;
    var dag := DagOf(g, ids);
    var rank := seq(|ids|, i => i);
    PassCompletes(g, itemKeys, now, ids, itemKey, run);
    var st := PassFrom(dag, Statuses(run.items), 0).value;
    PassedFacts(g, ids, itemKey, run, st, after);
    RestatedFacts(run.items, after.items, st, itemKey);
    InOrder(g, ids);
    PassIdempotent(dag, rank, ok, Statuses(run.items), st);
    PassCompletes(g, itemKeys, now, ids, itemKey, after);
    SyncTwice(run.nodes, after.items);
    hide DagOf, PlainRun;
    assert ReadinessPass(g, itemKeys, now, after).run.items == after.items;
  }

  lemma InOrder(g: Graph, ids: seq<Id>)
    requires forall a, b :: 0 <= a <= b < |ids| ==> !HasEdge(g, ids[b], ids[a])
    ensures var dag := DagOf(g, ids); forall i, j :: 0 <= i < |dag.on| && j in dag.sources[i] ==> j < i
  {
  }
}
