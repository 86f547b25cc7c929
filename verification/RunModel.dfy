/** The state of one run: nodes, items (one per node and item key), groups and group items. */
module RunModel {
  import opened Common
  import opened Workflow
  import opened StateMachine

  /** The wake-up text of an item: absent, blank, not a date, or a point in time. */
  datatype WakeAt = NoWake | BlankWake | UnreadableWake | WakeTime(at: int)

  datatype ItemRun = ItemRun(
    nodeId: Id, itemKey: string, status: Status, route: Option<string>, attempt: int, wakeAt: WakeAt, artifacts: seq<string>)

  datatype GroupItemRun = GroupItemRun(
    groupId: Id, itemKey: string, status: Status, attempt: int, artifacts: seq<string>)

  datatype NodeRun = NodeRun(id: Id, status: Status, artifacts: seq<string>)

  datatype GroupRun = GroupRun(id: Id, status: Status, members: seq<Id>, artifacts: seq<string>)

  datatype RunStatus = RunRunning | RunSuccess | RunFailed | RunStopped

  datatype Run = Run(nodes: seq<NodeRun>, items: seq<ItemRun>, groups: seq<GroupRun>, groupItems: seq<GroupItemRun>)

  // ---------------------------------------------------------------- lookups

  /** The index of the first item of a node and key, or |items|. */
  function ItemIndex(items: seq<ItemRun>, nodeId: Id, itemKey: string): (i: nat)
    ensures i <= |items|
    ensures i < |items| ==> items[i].nodeId == nodeId && items[i].itemKey == itemKey
    ensures forall k :: 0 <= k < i ==> !(items[k].nodeId == nodeId && items[k].itemKey == itemKey)
  {
    if items == [] then 0
    else if items[0].nodeId == nodeId && items[0].itemKey == itemKey then 0
    else 1 + ItemIndex(items[1..], nodeId, itemKey)
  }

  function GetItem(items: seq<ItemRun>, nodeId: Id, itemKey: string): Option<ItemRun> {
    var i := ItemIndex(items, nodeId, itemKey);
    if i < |items| then Some(items[i]) else None
  }

  function GroupItemIndex(items: seq<GroupItemRun>, groupId: Id, itemKey: string): (i: nat)
    ensures i <= |items|
    ensures i < |items| ==> items[i].groupId == groupId && items[i].itemKey == itemKey
    ensures forall k :: 0 <= k < i ==> !(items[k].groupId == groupId && items[k].itemKey == itemKey)
  {
    if items == [] then 0
    else if items[0].groupId == groupId && items[0].itemKey == itemKey then 0
    else 1 + GroupItemIndex(items[1..], groupId, itemKey)
  }

  function GetGroupItem(items: seq<GroupItemRun>, groupId: Id, itemKey: string): Option<GroupItemRun> {
    var i := GroupItemIndex(items, groupId, itemKey);
    if i < |items| then Some(items[i]) else None
  }

  // ---------------------------------------------------------------- aggregated statuses

  function Priority(s: Status): int {
    match s
    case Failed => 100
    case Running => 90
    case Rejected => 80
    case Waiting => 70
    case Queued => 60
    case Blocked => 50
    case Success => 40
    case Skipped => 30
    case Stopped => 20
  }

  /** The first status of the highest priority, blocked when there is no item. */
  function Aggregate(items: seq<ItemRun>): (best: Status)
    ensures items != [] ==> exists i :: 0 <= i < |items| && items[i].status == best
    ensures forall i :: 0 <= i < |items| ==> Priority(items[i].status) <= Priority(best)
  {
    if items == [] then Blocked
    else if |items| == 1 then items[0].status
    else
      var front, last := Aggregate(items[..|items| - 1]), items[|items| - 1].status;
      if Priority(last) > Priority(front) then last else front
  }

  method AggregateNodeStatus(items: seq<ItemRun>) returns (best: Status)
    ensures best == Aggregate(items)
  {
    if items == [] { return Blocked; }
    best := items[0].status;
    assert items[..1] == [items[0]];
    for k := 1 to |items|
      invariant best == Aggregate(items[..k])
    {
      assert items[..k + 1][..k] == items[..k];
      if Priority(items[k].status) > Priority(best) { best := items[k].status; }
    }
    assert items[..|items|] == items;
  }

  /** A node with items takes their aggregate, whatever it was before. */
  function SyncNodes(nodes: seq<NodeRun>, items: seq<ItemRun>): (r: seq<NodeRun>)
    ensures |r| == |nodes|
  {
    seq(|nodes|, i requires 0 <= i < |nodes| =>
      var related := Filter(items, (x: ItemRun) => x.nodeId == nodes[i].id);
      if related == [] then nodes[i] else nodes[i].(status := Aggregate(related)))
  }

  lemma SyncTwice(nodes: seq<NodeRun>, items: seq<ItemRun>)
    ensures SyncNodes(SyncNodes(nodes, items), items) == SyncNodes(nodes, items)
  {
    var once := SyncNodes(nodes, items);
    var twice := SyncNodes(once, items);
    forall i | 0 <= i < |nodes| ensures twice[i] == once[i] {
      assert once[i].id == nodes[i].id;
    }
  }

  function ComputeRunStatus(nodes: seq<Status>, groups: seq<Status>): RunStatus {
    if Failed in nodes then RunFailed
    else if Failed in groups then RunFailed
    else if Stopped in nodes then RunStopped
    else if Stopped in groups then RunStopped
    else if (forall s :: s in nodes ==> s == Success || s == Skipped)
         && (forall s :: s in groups ==> s == Success || s == Skipped) then RunSuccess
    else RunRunning
  }
}
