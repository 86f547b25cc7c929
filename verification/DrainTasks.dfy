/** Seeded runs, and the tasks of a drain: each is an item of its own that runs or has an outcome. */
module DrainTasks {
  import opened Common
  import opened Digraph
  import opened Workflow
  import opened WorkflowGraph
  import opened StateMachine
  import opened RunModel
  import opened Retry
  import opened Readiness
  import opened LaunchSafety
  import opened Drain
  import opened Scheduling

  // ---------------------------------------------------------------- seeded runs

  function Subjects(items: seq<ItemRun>): (r: seq<(Id, string)>)
    ensures |r| == |items| && forall i :: 0 <= i < |items| ==> r[i] == (items[i].nodeId, items[i].itemKey)
  {
    seq(|items|, i requires 0 <= i < |items| => (items[i].nodeId, items[i].itemKey))
  }

  function NodeRunIds(nodes: seq<NodeRun>): (r: seq<Id>)
    ensures |r| == |nodes| && forall i :: 0 <= i < |nodes| ==> r[i] == nodes[i].id
  {
    seq(|nodes|, i requires 0 <= i < |nodes| => nodes[i].id)
  }

  ghost predicate SameShape(a: Run, b: Run) {
    Subjects(a.items) == Subjects(b.items) && NodeRunIds(a.nodes) == NodeRunIds(b.nodes)
  }

  /** A seeded run: it has items, and each belongs to one of its nodes. */
  ghost predicate Known(run: Run) {
    run.items != [] && forall i :: 0 <= i < |run.items| ==> Subjects(run.items)[i].0 in NodeRunIds(run.nodes)
  }

  lemma KnownAfter(a: Run, b: Run)
    requires Known(a) && SameShape(a, b)
    ensures Known(b)
  {
  }

  lemma SyncKeepsShape(a: Run, nodes: seq<NodeRun>, items: seq<ItemRun>)
    requires nodes == SyncNodes(a.nodes, items)
    ensures NodeRunIds(nodes) == NodeRunIds(a.nodes)
  {
  }

  lemma EnsureKeepsItems(g: Graph, itemKeys: seq<string>, run: Run)
    requires Known(run)
    ensures EnsureItems(g, itemKeys, run).items == run.items && EnsureItems(g, itemKeys, run).nodes == run.nodes
  {
    forall x | x in run.items ensures exists n :: n in run.nodes && n.id == x.nodeId {
      var i :| 0 <= i < |run.items| && run.items[i] == x;
      assert Subjects(run.items)[i].0 in NodeRunIds(run.nodes);
    }
    FilterAll(run.items, (x: ItemRun) => exists n :: n in run.nodes && n.id == x.nodeId);
  }

  /** An enabled item that runs or has an outcome is untouched, and no item gains an attempt. */
  ghost predicate Preserves(g: Graph, a: seq<ItemRun>, b: seq<ItemRun>) {
    && Subjects(a) == Subjects(b)
    && (forall i :: 0 <= i < |a| ==> b[i].attempt == a[i].attempt)
    && forall i :: 0 <= i < |a| && Enabled(g, a[i].nodeId) && a[i].status in {Running, Success, Failed} ==> b[i] == a[i]
  }

  lemma TurnPreserves(g: Graph, items: seq<ItemRun>, groupItems: seq<GroupItemRun>, x: ItemRun, y: ItemRun)
    requires ReadyItem(g, items, groupItems, x) == Some(y)
    ensures y.nodeId == x.nodeId && y.itemKey == x.itemKey && y.attempt == x.attempt
    ensures Enabled(g, x.nodeId) && x.status in {Running, Success, Failed} ==> y == x
  {
  }

  lemma ItemsPreserved(g: Graph, groupItems: seq<GroupItemRun>, before: seq<ItemRun>, after: seq<ItemRun>)
    requires ReadyItems(g, groupItems, before) == Some(after)
    ensures Preserves(g, before, after)
  {
    PassTurns(g, groupItems, before, after);
    forall i | 0 <= i < |before|
      ensures Subjects(after)[i] == Subjects(before)[i] && after[i].attempt == before[i].attempt
      ensures Enabled(g, before[i].nodeId) && before[i].status in {Running, Success, Failed} ==> after[i] == before[i]
    {
      TurnPreserves(g, AtTurn(before, after, i), groupItems, before[i], after[i]);
    }
  }

  lemma PassNodes(g: Graph, itemKeys: seq<string>, now: int, run: Run, after: Run)
    requires ReadinessPass(g, itemKeys, now, run) == Completed(after)
    ensures NodeRunIds(after.nodes) == NodeRunIds(run.nodes)
  {
  }

  /** What a drain relies on when it looks. */
  ghost predicate Faithful(cfg: Config, look: Look) {
    forall run :: Known(run) && look(run).Some? ==> Handover(cfg, run, look(run).value)
  }

  ghost predicate Handover(cfg: Config, run: Run, found: Found) {
    && SameShape(run, found.run)
    && Preserves(cfg.g, run.items, found.run.items)
    && FreshBatch(cfg.g, found.run.items, found.candidates)
  }

  lemma NoGroupItems(g: Graph, itemKeys: seq<string>, now: int, run: Run, after: Run)
    requires g.groups == [] && ReadinessPass(g, itemKeys, now, run) == Completed(after)
    ensures after.groupItems == []
  {
    PassGroupItems(g, itemKeys, now, run, after);
    FilterNone(ItemPass(g, itemKeys, now, run).run.groupItems, (x: GroupItemRun) => x.groupId in GroupIds(g.groups));
  }

  lemma PassGroupItems(g: Graph, itemKeys: seq<string>, now: int, run: Run, after: Run)
    requires ReadinessPass(g, itemKeys, now, run) == Completed(after)
    ensures ItemPass(g, itemKeys, now, run).Completed?
    ensures |after.groupItems| == |KeepGroupItems(g, ItemPass(g, itemKeys, now, run).run.groupItems)|
  {
  }

  lemma LookIsFaithful(cfg: Config, now: int)
    requires NodesOnly(cfg.g)
    ensures Faithful(cfg, LookAt(cfg, now))
  {
    var look := LookAt(cfg, now);
    forall run | Known(run) && look(run).Some? ensures Handover(cfg, run, look(run).value) {
      var after := look(run).value.run;
      EnsureKeepsItems(cfg.g, cfg.itemKeys, run);
      PassParts(cfg.g, cfg.itemKeys, now, run, after);
      ItemsPreserved(cfg.g, EnsureItems(cfg.g, cfg.itemKeys, run).groupItems, run.items, after.items);
      PassNodes(cfg.g, cfg.itemKeys, now, run, after);
      NoGroupItems(cfg.g, cfg.itemKeys, now, run, after);
      CandidatesAreFresh(cfg, after);
    }
  }

  // ---------------------------------------------------------------- running and settled items

  predicate Occupied(g: Graph, items: seq<ItemRun>, i: nat) {
    i < |items| && Enabled(g, items[i].nodeId) && items[i].status in {Running, Success, Failed}
  }

  ghost predicate Tasks(cfg: Config, s: State) {
    && s.executing !! s.settled.Keys
    && forall i :: i in s.executing + s.settled.Keys ==> Occupied(cfg.g, s.run.items, i)
  }

  lemma TasksPreserved(cfg: Config, s: State, run: Run)
    requires Tasks(cfg, s) && Preserves(cfg.g, s.run.items, run.items)
    ensures Tasks(cfg, s.(run := run))
  {
    assert forall i :: 0 <= i < |run.items| ==> Subjects(run.items)[i] == Subjects(s.run.items)[i];
  }

  /** Different items, all enabled and queued. */
  ghost predicate FreshBatch(g: Graph, items: seq<ItemRun>, batch: seq<Candidate>) {
    && Distinct(batch)
    && forall c :: c in batch ==> c.NodeItem? && c.index < |items| && items[c.index].status == Queued && Enabled(g, items[c.index].nodeId)
  }

  lemma LaunchItems(cfg: Config, s: State, i: nat)
    requires i < |s.run.items| && s.run.items[i].status == Queued && Enabled(cfg.g, s.run.items[i].nodeId)
    ensures var t := Launch(cfg, s, i);
            && SameShape(s.run, t.run)
            && Occupied(cfg.g, t.run.items, i)
            && (forall k :: 0 <= k < |s.run.items| && k != i ==> t.run.items[k] == s.run.items[k])
  {
    assert Subjects(Launch(cfg, s, i).run.items) == Subjects(s.run.items);
  }

  lemma LaunchSets(cfg: Config, s: State, i: nat)
    requires i < |s.run.items|
    ensures var t := Launch(cfg, s, i);
            || (t.executing == s.executing + {i} && t.settled.Keys == s.settled.Keys)
            || (t.executing == s.executing && t.settled.Keys == s.settled.Keys + {i})
  {
  }

  lemma LaunchOne(cfg: Config, s: State, i: nat)
    requires Tasks(cfg, s) && i < |s.run.items| && s.run.items[i].status == Queued && Enabled(cfg.g, s.run.items[i].nodeId)
    ensures var t := Launch(cfg, s, i);
            && Tasks(cfg, t)
            && Active(t) == Active(s) + 1 && |t.executing| <= |s.executing| + 1
  {
    LaunchItems(cfg, s, i);
    LaunchSets(cfg, s, i);
    var t := Launch(cfg, s, i);
    assert i !in s.executing + s.settled.Keys by { assert !Occupied(cfg.g, s.run.items, i); }
    OthersOccupied(cfg.g, s.run.items, t.run.items, s.executing + s.settled.Keys, i);
    OneMore(s.executing, s.settled.Keys, t.executing, t.settled.Keys, i);
  }

  lemma OneMore(e: set<nat>, d: set<nat>, e': set<nat>, d': set<nat>, i: nat)
    requires e !! d && i !in e + d
    requires (e' == e + {i} && d' == d) || (e' == e && d' == d + {i})
    ensures e' !! d' && e' + d' == e + d + {i}
    ensures |e'| + |d'| == |e| + |d| + 1 && |e'| <= |e| + 1
  {
  }

  lemma OthersOccupied(g: Graph, a: seq<ItemRun>, b: seq<ItemRun>, tasks: set<nat>, i: nat)
    requires forall k :: k in tasks ==> Occupied(g, a, k)
    requires |b| == |a| && Occupied(g, b, i) && forall k :: 0 <= k < |a| && k != i ==> b[k] == a[k]
    ensures forall k :: k in tasks + {i} ==> Occupied(g, b, k)
  {
    forall k | k in tasks + {i} ensures Occupied(g, b, k) {
      if k != i { assert Occupied(g, a, k); }
    }
  }

  lemma {:induction false} LaunchesCount(cfg: Config, s: State, batch: seq<Candidate>)
    requires Tasks(cfg, s) && FreshBatch(cfg.g, s.run.items, batch)
    ensures var t := LaunchAll(cfg, s, batch);
            && Tasks(cfg, t) && SameShape(s.run, t.run)
            && Active(t) == Active(s) + |batch| && |t.executing| <= |s.executing| + |batch|
    decreases |batch|
  {
    if batch == [] {
    } else {
      assert batch[0] in batch;
      var t := Launch(cfg, s, batch[0].index);
      LaunchOne(cfg, s, batch[0].index);
      LaunchItems(cfg, s, batch[0].index);
      forall c | c in batch[1..]
        ensures c.NodeItem? && c.index < |t.run.items| && t.run.items[c.index].status == Queued && Enabled(cfg.g, t.run.items[c.index].nodeId)
      {
        assert c in batch && c != batch[0];
      }
      LaunchesCount(cfg, t, batch[1..]);
    }
  }

  lemma {:induction false} CandidatesDistinct(g: Graph, run: Run, i: nat)
    requires i <= |run.items|
    ensures Distinct(NodeCandidates(g, run, i))
    decreases |run.items| - i
  {
    if i == |run.items| {
    } else {
      CandidatesDistinct(g, run, i + 1);
    }
  }

  lemma CandidatesAreFresh(cfg: Config, run: Run)
    requires run.groupItems == []
    ensures FreshBatch(cfg.g, run.items, Candidates(cfg.g, run))
  {
    CandidatesDistinct(cfg.g, run, 0);
    assert Candidates(cfg.g, run) == NodeCandidates(cfg.g, run, 0);
  }

  lemma FirstOfFresh(cfg: Config, items: seq<ItemRun>, candidates: seq<Candidate>, max: nat)
    requires FreshBatch(cfg.g, items, candidates)
    ensures FreshBatch(cfg.g, items, FirstOf(candidates, max))
  {
  }

  lemma TailFresh(g: Graph, a: seq<ItemRun>, b: seq<ItemRun>, batch: seq<Candidate>)
    requires batch != [] && FreshBatch(g, a, batch)
    requires |b| == |a| && forall k :: 0 <= k < |a| && k != batch[0].index ==> b[k] == a[k]
    ensures FreshBatch(g, b, batch[1..])
  {
    forall c | c in batch[1..]
      ensures c.NodeItem? && c.index < |b| && b[c.index].status == Queued && Enabled(g, b[c.index].nodeId)
    {
      assert c in batch && batch[0] in batch && c != batch[0];
    }
  }

  // ---------------------------------------------------------------- finishing

  lemma MarkKeepsShape(run: Run, nodeId: Id, status: Status)
    requires MarkNode(run, nodeId, status).Some?
    ensures var after := MarkNode(run, nodeId, status).value;
            && after == run.(nodes := after.nodes) && NodeRunIds(after.nodes) == NodeRunIds(run.nodes)
  {
  }

  lemma PromoteItemPreserves(g: Graph, run: Run, nodeId: Id, itemKey: string)
    ensures Preserves(g, run.items, PromoteItem(run, nodeId, itemKey).items)
  {
    assert Subjects(PromoteItem(run, nodeId, itemKey).items) == Subjects(run.items);
  }

  lemma {:induction false} PromotePreserves(g: Graph, run: Run, itemKey: string, outgoing: seq<Link>)
    ensures var after := Promote(g, run, itemKey, outgoing);
            Preserves(g, run.items, after.items) && after.nodes == run.nodes
    decreases |outgoing|
  {
    if outgoing == [] {
    } else {
      var e := outgoing[0];
      if !Unlabelled(e) || Cross(g, e.(when := None)) {
        PromotePreserves(g, run, itemKey, outgoing[1..]);
      } else if IsGroup(g, e.to) {
        PromotePreserves(g, PromoteGroup(g, run, e.to, itemKey), itemKey, outgoing[1..]);
      } else {
        PromoteItemPreserves(g, run, e.to, itemKey);
        PromotePreserves(g, PromoteItem(run, e.to, itemKey), itemKey, outgoing[1..]);
      }
    }
  }

  /** What finishing task i does to the run: its own outcome, and no other outcome touched. */
  lemma FinishItems(cfg: Config, s: State, i: nat)
    requires i in s.ended && Occupied(cfg.g, s.run.items, i) && !s.phase.Crashed? && !Finish(cfg, s, i).phase.Crashed?
    ensures var t := Finish(cfg, s, i);
            && SameShape(s.run, t.run)
            && Occupied(cfg.g, t.run.items, i)
            && (forall k: nat :: k != i && Occupied(cfg.g, s.run.items, k) ==> Occupied(cfg.g, t.run.items, k))
  {
    var x, verdict := s.run.items[i], s.ended[i];
    var items := s.run.items[i := x.(status := if verdict.Succeed? then Success else Failed,
                                     route := if Enveloped(verdict) then None else x.route)];
    assert Subjects(items) == Subjects(s.run.items);
    assert forall k: nat :: Occupied(cfg.g, s.run.items, k) ==> Occupied(cfg.g, items, k);
    if Enveloped(verdict) {
      var run := s.run.(items := items);
      var after := Promote(cfg.g, run, x.itemKey, Outgoing(cfg.g.definition.edges, x.nodeId));
      PromotePreserves(cfg.g, run, x.itemKey, Outgoing(cfg.g.definition.edges, x.nodeId));
      assert forall k: nat :: Occupied(cfg.g, items, k) ==> after.items[k] == items[k];
    }
  }

  lemma FinishFields(cfg: Config, s: State, i: nat)
    requires i in s.ended && i < |s.run.items| && !s.phase.Crashed? && !Finish(cfg, s, i).phase.Crashed?
    ensures var t := Finish(cfg, s, i);
            && t == s.(run := t.run, executing := s.executing - {i}, begun := s.begun - {i}, ended := s.ended - {i},
                       settled := s.settled[i := ResultOf(s.ended[i])])
            && t.settled.Keys == s.settled.Keys + {i}
  {
    hide Promote, ItemIndex;
  }

  lemma TasksFinished(cfg: Config, s: State, t: State, i: nat)
    requires Tasks(cfg, s) && i in s.executing && Occupied(cfg.g, t.run.items, i)
    requires t.executing == s.executing - {i} && t.settled.Keys == s.settled.Keys + {i}
    requires forall k: nat :: k != i && Occupied(cfg.g, s.run.items, k) ==> Occupied(cfg.g, t.run.items, k)
    ensures Tasks(cfg, t)
  {
    forall k | k in t.executing + t.settled.Keys ensures Occupied(cfg.g, t.run.items, k) {
      assert k != i ==> k in s.executing + s.settled.Keys;
    }
  }
}
