/** Seeding of items and groups, and the reset that a retry applies before the scheduler looks again. */
module Retry {
  import opened Common
  import opened Digraph
  import opened Workflow
  import opened WorkflowGraph
  import opened StateMachine
  import opened RunModel
  import opened RunState

  // ---------------------------------------------------------------- initial statuses and seeding

  function InitialItemStatus(g: Graph, nodeId: Id): Status {
    if !Enabled(g, nodeId) then Skipped
    else if OwnerGroup(g, nodeId).Some? then Blocked
    else if Incoming(g.definition.edges, nodeId) == [] then Queued else Blocked
  }

  function InitialGroupStatus(g: Graph, groupId: Id): Status {
    if Incoming(g.definition.edges, groupId) == [] then Queued else Blocked
  }

  function FreshItem(g: Graph, nodeId: Id, itemKey: string): ItemRun {
    ItemRun(nodeId, itemKey, InitialItemStatus(g, nodeId), None, 0, NoWake, [])
  }

  function SeedForNode(g: Graph, nodeId: Id, itemKeys: seq<string>): (r: seq<ItemRun>)
    ensures forall x :: x in r ==> x.nodeId == nodeId && x == FreshItem(g, nodeId, x.itemKey)
  {
    if itemKeys == [] then [] else [FreshItem(g, nodeId, itemKeys[0])] + SeedForNode(g, nodeId, itemKeys[1..])
  }

  function SeedItems(g: Graph, nodeIds: seq<Id>, itemKeys: seq<string>): seq<ItemRun> {
    if nodeIds == [] then [] else SeedForNode(g, nodeIds[0], itemKeys) + SeedItems(g, nodeIds[1..], itemKeys)
  }

  /** The run's groups follow the graph's, keeping the status of those already known. */
  function SyncGroups(g: Graph, groups: seq<GroupRun>): (r: seq<GroupRun>)
    ensures |r| == |g.groups| && forall i :: 0 <= i < |r| ==> r[i].id == g.groups[i].id
  {
    seq(|g.groups|, i requires 0 <= i < |g.groups| =>
      var known := FindLast(groups, (x: GroupRun) => x.id == g.groups[i].id);
      GroupRun(g.groups[i].id, if known.Some? then known.value.status else Blocked, g.groups[i].members,
               if known.Some? then known.value.artifacts else []))
  }

  function KeepGroupItems(g: Graph, items: seq<GroupItemRun>): seq<GroupItemRun> {
    Filter(items, (x: GroupItemRun) => x.groupId in GroupIds(g.groups))
  }

  function AddGroupItems(g: Graph, groups: seq<Group>, itemKey: string, items: seq<GroupItemRun>): seq<GroupItemRun> {
    if groups == [] then items
    else
      var id := groups[0].id;
      AddGroupItems(g, groups[1..], itemKey,
                    if GetGroupItem(items, id, itemKey).Some? then items
                    else items + [GroupItemRun(id, itemKey, InitialGroupStatus(g, id), 0, [])])
  }

  function AddAllGroupItems(g: Graph, itemKeys: seq<string>, items: seq<GroupItemRun>): seq<GroupItemRun> {
    if itemKeys == [] then items
    else AddAllGroupItems(g, itemKeys[1..], AddGroupItems(g, g.groups, itemKeys[0], KeepGroupItems(g, items)))
  }

  /** A run without items is seeded; otherwise items of unknown nodes are dropped. */
  function EnsureItems(g: Graph, itemKeys: seq<string>, run: Run): Run {
    var synced := run.(groups := SyncGroups(g, run.groups), groupItems := KeepGroupItems(g, run.groupItems));
    if run.items == [] then
      synced.(items := SeedItems(g, NodeIds(g.definition.nodes), itemKeys),
              groupItems := AddAllGroupItems(g, itemKeys, synced.groupItems))
    else
      synced.(items := Filter(run.items, (x: ItemRun) => exists n :: n in run.nodes && n.id == x.nodeId))
  }

  // ---------------------------------------------------------------- resets

  predicate KeyMatches(itemKey: Option<string>, candidate: string) {
    itemKey.None? || itemKey.value == "" || itemKey.value == candidate
  }

  function ResetItem(g: Graph, item: ItemRun): ItemRun {
    item.(status := InitialItemStatus(g, item.nodeId), route := None, wakeAt := NoWake, artifacts := [])
  }

  /** A retry clears the attempts of a group item, a rejection does not. */
  function ResetGroupItem(g: Graph, item: GroupItemRun, clearAttempt: bool): GroupItemRun {
    item.(status := InitialGroupStatus(g, item.groupId), attempt := if clearAttempt then 0 else item.attempt, artifacts := [])
  }

  function ResetGroup(g: Graph, group: GroupRun): GroupRun {
    group.(status := InitialGroupStatus(g, group.id), artifacts := [])
  }

  /** A dependency counts as met when its source succeeded or is a disabled node. */
  predicate SourceMet(g: Graph, nodes: seq<NodeRun>, groups: seq<GroupRun>, id: Id) {
    if IsGroup(g, id) then
      var group := FindFirst(groups, (x: GroupRun) => x.id == id);
      group.Some? && group.value.status == Success
    else
      !Enabled(g, id) ||
      var node := FindFirst(nodes, (x: NodeRun) => x.id == id);
      node.Some? && node.value.status == Success
  }

  /** The status a node is reset to: queued only if the edges into it and into its declared group are all met. */
  function ReplayStatus(g: Graph, nodes: seq<NodeRun>, groups: seq<GroupRun>, id: Id): Status {
    var node := NodeById(g, id);
    var declared := if node.Some? && node.value.parallelGroupId.Some? then node.value.parallelGroupId.value else "";
    var edges := Incoming(g.definition.edges, id)
                 + (if declared != "" then Incoming(g.definition.edges, declared) else []);
    if !Enabled(g, id) then Skipped
    else if forall e :: e in edges && !Cross(g, e) ==> SourceMet(g, nodes, groups, e.from) then Queued
    else Blocked
  }

  /** A running or stopped subject cannot be reset: the reset raises. */
  predicate Unresettable(s: Status) { s == Running || s == Stopped }

  datatype RetryResult = NodeNotFound | ItemsNotFound | Raised | ResetDone

  /** What a retry touches: the items and nodes in `nodeIds` and the groups and group items in `groupIds`. */
  predicate Selected(nodeIds: set<Id>, itemKey: Option<string>, item: ItemRun) {
    item.nodeId in nodeIds && KeyMatches(itemKey, item.itemKey)
  }

  predicate GroupSelected(groupIds: set<Id>, itemKey: Option<string>, item: GroupItemRun) {
    item.groupId in groupIds && KeyMatches(itemKey, item.itemKey)
  }

  /** The two sets hold exactly the nodes and groups downstream of `root`. */
  ghost predicate DownstreamSets(g: Graph, root: Id, nodeIds: set<Id>, groupIds: set<Id>) {
    && (forall id :: id in nodeIds <==> Affected(g, root, id) && !IsGroup(g, id))
    && (forall id :: id in groupIds <==> Affected(g, root, id) && IsGroup(g, id))
  }

  ghost predicate ItemsHindered(nodeIds: set<Id>, itemKey: Option<string>, items: seq<ItemRun>) {
    exists x :: x in items && Selected(nodeIds, itemKey, x) && Unresettable(x.status)
  }

  ghost predicate NodesHindered(nodeIds: set<Id>, nodes: seq<NodeRun>) {
    exists x :: x in nodes && x.id in nodeIds && Unresettable(x.status)
  }

  ghost predicate GroupsHindered(groupIds: set<Id>, groups: seq<GroupRun>) {
    exists x :: x in groups && x.id in groupIds && Unresettable(x.status)
  }

  ghost predicate GroupItemsHindered(groupIds: set<Id>, itemKey: Option<string>, items: seq<GroupItemRun>) {
    exists x :: x in items && GroupSelected(groupIds, itemKey, x) && Unresettable(x.status)
  }

  /** Some subject the retry would reset is running or stopped. */
  ghost predicate Hindered(nodeIds: set<Id>, groupIds: set<Id>, itemKey: Option<string>, run: Run) {
    || ItemsHindered(nodeIds, itemKey, run.items)
    || NodesHindered(nodeIds, run.nodes)
    || GroupsHindered(groupIds, run.groups)
    || GroupItemsHindered(groupIds, itemKey, run.groupItems)
  }

  ghost predicate ItemsReset(g: Graph, nodeIds: set<Id>, itemKey: Option<string>, before: seq<ItemRun>, after: seq<ItemRun>) {
    && |after| == |before|
    && forall i :: 0 <= i < |before| ==>
         after[i] == if Selected(nodeIds, itemKey, before[i]) then ResetItem(g, before[i]) else before[i]
  }

  function ResetNode(g: Graph, nodes: seq<NodeRun>, groups: seq<GroupRun>, node: NodeRun): NodeRun {
    node.(status := ReplayStatus(g, nodes, groups, node.id), artifacts := [])
  }

  /** Nodes are reset in order, each judged against the nodes as they stand at its turn. */
  ghost predicate NodesReset(g: Graph, nodeIds: set<Id>, groups: seq<GroupRun>, before: seq<NodeRun>, after: seq<NodeRun>) {
    |after| == |before| && NodesResetUpTo(g, nodeIds, groups, before, after, |before|)
  }

  ghost predicate NodesResetUpTo(g: Graph, nodeIds: set<Id>, groups: seq<GroupRun>, before: seq<NodeRun>, after: seq<NodeRun>, k: nat)
    requires |after| == |before| && k <= |before|
  {
    forall i :: 0 <= i < k ==>
      after[i] == if before[i].id in nodeIds then ResetNode(g, after[..i] + before[i..], groups, before[i]) else before[i]
  }

  /** One turn of the loop over the nodes. */
  lemma NodeTurn(g: Graph, nodeIds: set<Id>, groups: seq<GroupRun>, before: seq<NodeRun>, after: seq<NodeRun>, k: nat)
    requires |after| == |before| && k < |before| && after[k..] == before[k..]
    requires NodesResetUpTo(g, nodeIds, groups, before, after, k)
    ensures var next := if before[k].id in nodeIds then after[k := ResetNode(g, after, groups, after[k])] else after;
            NodesResetUpTo(g, nodeIds, groups, before, next, k + 1) && next[k + 1..] == before[k + 1..]
  {
    var next := if before[k].id in nodeIds then after[k := ResetNode(g, after, groups, after[k])] else after;
    assert after == after[..k] + after[k..];
    assert after[k] == after[k..][0] == before[k];
    assert next[k + 1..] == after[k..][1..];
    forall i | 0 <= i <= k ensures next[..i] == after[..i] {}
  }

  ghost predicate GroupsReset(g: Graph, groupIds: set<Id>, before: seq<GroupRun>, after: seq<GroupRun>) {
    && |after| == |before|
    && forall i :: 0 <= i < |before| ==>
         after[i] == if before[i].id in groupIds then ResetGroup(g, before[i]) else before[i]
  }

  ghost predicate GroupItemsReset(g: Graph, groupIds: set<Id>, itemKey: Option<string>, clearAttempt: bool,
                                  before: seq<GroupItemRun>, after: seq<GroupItemRun>) {
    && |after| == |before|
    && forall i :: 0 <= i < |before| ==>
         after[i] == if GroupSelected(groupIds, itemKey, before[i]) then ResetGroupItem(g, before[i], clearAttempt) else before[i]
  }

  /** `after` is `before` with exactly the selected subjects reset. */
  ghost predicate ResetOf(g: Graph, nodeIds: set<Id>, groupIds: set<Id>, itemKey: Option<string>, clearAttempt: bool,
                          before: Run, after: Run) {
    && ItemsReset(g, nodeIds, itemKey, before.items, after.items)
    && NodesReset(g, nodeIds, before.groups, before.nodes, after.nodes)
    && GroupsReset(g, groupIds, before.groups, after.groups)
    && GroupItemsReset(g, groupIds, itemKey, clearAttempt, before.groupItems, after.groupItems)
  }

  // ---------------------------------------------------------------- the loops

  class Store {
    var run: Run

    constructor (run: Run)
      ensures this.run == run
    {
      this.run := run;
    }

    method EnsureItemRuns(g: Graph, itemKeys: seq<string>)
      modifies this
      ensures run == EnsureItems(g, itemKeys, old(run))
    {
      run := EnsureItems(g, itemKeys, run);
    }

    method ResetItems(g: Graph, nodeIds: set<Id>, itemKey: Option<string>) returns (raised: bool)
      modifies this
      ensures raised <==> ItemsHindered(nodeIds, itemKey, old(run.items))
      ensures run == old(run).(items := run.items)
      ensures !raised ==> ItemsReset(g, nodeIds, itemKey, old(run.items), run.items)
    {
      for k := 0 to |run.items|
        invariant run == old(run).(items := run.items) && |run.items| == |old(run.items)|
        invariant forall i :: 0 <= i < k ==>
          var x := old(run.items)[i];
          var chosen := Selected(nodeIds, itemKey, x);
          && (chosen ==> !Unresettable(x.status))
          && run.items[i] == if chosen then ResetItem(g, x) else x
        invariant forall i :: k <= i < |run.items| ==> run.items[i] == old(run.items)[i]
      {
        var x := run.items[k];
        if Selected(nodeIds, itemKey, x) {
          ResetRaisesExactly(x.status, InitialItemStatus(g, x.nodeId));
          if TransitionStatus(x.status, InitialItemStatus(g, x.nodeId), None).None? {
            assert old(run.items)[k] == x;
            return true;
          }
          run := run.(items := run.items[k := ResetItem(g, x)]);
        }
      }
      return false;
    }

    method ResetNodes(g: Graph, nodeIds: set<Id>) returns (raised: bool)
      modifies this
      ensures raised <==> NodesHindered(nodeIds, old(run.nodes))
      ensures run == old(run).(nodes := run.nodes)
      ensures !raised ==> NodesReset(g, nodeIds, run.groups, old(run.nodes), run.nodes)
    {
      ghost var before := run.nodes;
      for k := 0 to |run.nodes|
        invariant run == old(run).(nodes := run.nodes) && |run.nodes| == |before|
        invariant forall i :: 0 <= i < k ==> !(before[i].id in nodeIds && Unresettable(before[i].status))
        invariant NodesResetUpTo(g, nodeIds, run.groups, before, run.nodes, k) && run.nodes[k..] == before[k..]
      {
        NodeTurn(g, nodeIds, run.groups, before, run.nodes, k);
        var x := run.nodes[k];
        assert x == run.nodes[k..][0] == before[k];
        if x.id in nodeIds {
          var target := ReplayStatus(g, run.nodes, run.groups, x.id);
          ResetRaisesExactly(x.status, target);
          if TransitionStatus(x.status, target, None).None? { return true; }
          run := run.(nodes := run.nodes[k := x.(status := target, artifacts := [])]);
        }
      }
      return false;
    }

    method ResetGroups(g: Graph, groupIds: set<Id>) returns (raised: bool)
      modifies this
      ensures raised <==> GroupsHindered(groupIds, old(run.groups))
      ensures run == old(run).(groups := run.groups)
      ensures !raised ==> GroupsReset(g, groupIds, old(run.groups), run.groups)
    {
      for k := 0 to |run.groups|
        invariant run == old(run).(groups := run.groups) && |run.groups| == |old(run.groups)|
        invariant forall i :: 0 <= i < k ==>
          var x := old(run.groups)[i];
          && (x.id in groupIds ==> !Unresettable(x.status))
          && run.groups[i] == if x.id in groupIds then ResetGroup(g, x) else x
        invariant forall i :: k <= i < |run.groups| ==> run.groups[i] == old(run.groups)[i]
      {
        var x := run.groups[k];
        if x.id in groupIds {
          ResetRaisesExactly(x.status, InitialGroupStatus(g, x.id));
          if TransitionStatus(x.status, InitialGroupStatus(g, x.id), None).None? {
            assert old(run.groups)[k] == x;
            return true;
          }
          run := run.(groups := run.groups[k := ResetGroup(g, x)]);
        }
      }
      return false;
    }

    method ResetGroupItems(g: Graph, groupIds: set<Id>, itemKey: Option<string>, clearAttempt: bool) returns (raised: bool)
      modifies this
      ensures raised <==> GroupItemsHindered(groupIds, itemKey, old(run.groupItems))
      ensures run == old(run).(groupItems := run.groupItems)
      ensures !raised ==> GroupItemsReset(g, groupIds, itemKey, clearAttempt, old(run.groupItems), run.groupItems)
    {
      for k := 0 to |run.groupItems|
        invariant run == old(run).(groupItems := run.groupItems) && |run.groupItems| == |old(run.groupItems)|
        invariant forall i :: 0 <= i < k ==>
          var x := old(run.groupItems)[i];
          var chosen := GroupSelected(groupIds, itemKey, x);
          && (chosen ==> !Unresettable(x.status))
          && run.groupItems[i] == if chosen then ResetGroupItem(g, x, clearAttempt) else x
        invariant forall i :: k <= i < |run.groupItems| ==> run.groupItems[i] == old(run.groupItems)[i]
      {
        var x := run.groupItems[k];
        if GroupSelected(groupIds, itemKey, x) {
          ResetRaisesExactly(x.status, InitialGroupStatus(g, x.groupId));
          if TransitionStatus(x.status, InitialGroupStatus(g, x.groupId), None).None? {
            assert old(run.groupItems)[k] == x;
            return true;
          }
          run := run.(groupItems := run.groupItems[k := ResetGroupItem(g, x, clearAttempt)]);
        }
      }
      return false;
    }

    method ResetAll(g: Graph, nodeIds: set<Id>, groupIds: set<Id>, itemKey: Option<string>) returns (raised: bool)
      modifies this
      ensures raised <==> Hindered(nodeIds, groupIds, itemKey, old(run))
      ensures !raised ==> ResetOf(g, nodeIds, groupIds, itemKey, true, old(run), run)
    {
      raised := ResetItems(g, nodeIds, itemKey);
      if raised { return; }
      raised := ResetNodes(g, nodeIds);
      if raised { return; }
      raised := ResetGroups(g, groupIds);
      if raised { return; }
      raised := ResetGroupItems(g, groupIds, itemKey, true);
    }

    /** The reset that a rejection applies downstream of its target, sparing the nodes in `skip`. */
    method ResetAffectedDownstreamNodes(g: Graph, target: Id, itemKey: Option<string>, skip: set<Id>)
      returns (raised: bool, nodeIds: set<Id>, groupIds: set<Id>)
      modifies this
      ensures DownstreamSets(g, target, nodeIds, groupIds)
      ensures raised <==> Hindered(nodeIds - skip, groupIds, itemKey, old(run))
      ensures !raised ==> ResetOf(g, nodeIds - skip, groupIds, itemKey, false, old(run), run)
    {
      nodeIds, groupIds := CollectDownstreamSubgraph(g, target);
      raised := ResetNodes(g, nodeIds - skip);
      if raised { return; }
      raised := ResetGroups(g, groupIds);
      if raised { return; }
      raised := ResetItems(g, nodeIds - skip, itemKey);
      if raised { return; }
      raised := ResetGroupItems(g, groupIds, itemKey, false);
    }

    /** The part of a retry that precedes the readiness pass. */
    method RetryReset(g: Graph, itemKeys: seq<string>, nodeId: Id, itemKey: Option<string>)
      returns (r: RetryResult, nodeIds: set<Id>, groupIds: set<Id>)
      modifies this
      ensures r == NodeNotFound <==> !exists n :: n in old(run.nodes) && n.id == nodeId
      ensures r == NodeNotFound ==> run == old(run)
      ensures r != NodeNotFound ==>
        var start := EnsureItems(g, itemKeys, old(run));
        && DownstreamSets(g, nodeId, nodeIds, groupIds)
        && (r == ItemsNotFound <==> !exists x :: x in start.items && Selected(nodeIds, itemKey, x))
        && (r == ItemsNotFound ==> run == start)
        && (r != ItemsNotFound ==> (r == Raised <==> Hindered(nodeIds, groupIds, itemKey, start)))
        && (r == ResetDone ==> ResetOf(g, nodeIds, groupIds, itemKey, true, start, run))
    {
      nodeIds, groupIds := {}, {};
      if !exists n :: n in run.nodes && n.id == nodeId { return NodeNotFound, nodeIds, groupIds; }
      EnsureItemRuns(g, itemKeys);
      nodeIds, groupIds := CollectDownstreamSubgraph(g, nodeId);
      if !exists x :: x in run.items && Selected(nodeIds, itemKey, x) { return ItemsNotFound, nodeIds, groupIds; }
      var raised := ResetAll(g, nodeIds, groupIds, itemKey);
      r := if raised then Raised else ResetDone;
    }
  }

  /** After a completed retry without an item key nothing affected keeps an outcome, and nothing else changed. */
  lemma RetryLeavesNothingStale(g: Graph, root: Id, nodeIds: set<Id>, groupIds: set<Id>, before: Run, after: Run)
    requires DownstreamSets(g, root, nodeIds, groupIds)
    requires ResetOf(g, nodeIds, groupIds, None, true, before, after)
    ensures forall i :: 0 <= i < |after.items| && Affected(g, root, after.items[i].nodeId) && !IsGroup(g, after.items[i].nodeId) ==>
              && after.items[i].status in {Queued, Blocked, Skipped}
              && after.items[i].route.None? && after.items[i].wakeAt == NoWake && after.items[i].artifacts == []
    ensures forall i :: 0 <= i < |after.items| && !Affected(g, root, after.items[i].nodeId) ==>
              after.items[i] == before.items[i]
    ensures forall i :: 0 <= i < |after.nodes| && Affected(g, root, after.nodes[i].id) && !IsGroup(g, after.nodes[i].id) ==>
              after.nodes[i].status in {Queued, Blocked, Skipped}
    ensures forall i :: 0 <= i < |after.groupItems| && Affected(g, root, after.groupItems[i].groupId)
                        && IsGroup(g, after.groupItems[i].groupId) ==>
              after.groupItems[i].status in {Queued, Blocked}
    ensures forall i :: 0 <= i < |after.groups| && Affected(g, root, after.groups[i].id) && IsGroup(g, after.groups[i].id) ==>
              after.groups[i].status in {Queued, Blocked}
    ensures forall i :: 0 <= i < |after.nodes| && !Affected(g, root, after.nodes[i].id) ==> after.nodes[i] == before.nodes[i]
    ensures forall i :: 0 <= i < |after.groups| && !Affected(g, root, after.groups[i].id) ==> after.groups[i] == before.groups[i]
    ensures forall i :: 0 <= i < |after.groupItems| && !Affected(g, root, after.groupItems[i].groupId) ==>
              after.groupItems[i] == before.groupItems[i]
  {
    forall i | 0 <= i < |after.items| ensures after.items[i].nodeId == before.items[i].nodeId {}
    forall i | 0 <= i < |after.nodes| ensures after.nodes[i].id == before.nodes[i].id {}
    forall i | 0 <= i < |after.groups| ensures after.groups[i].id == before.groups[i].id {}
    forall i | 0 <= i < |after.groupItems| ensures after.groupItems[i].groupId == before.groupItems[i].groupId {}
  }
}
