/** Whatever a completed readiness pass leaves to be picked has its dependencies met at that moment. */
module LaunchSafety {
  import opened Common
  import opened Digraph
  import opened Workflow
  import opened WorkflowGraph
  import opened StateMachine
  import opened RunModel
  import opened Retry
  import opened Readiness

  // ---------------------------------------------------------------- satisfied dependencies stay satisfied

  /** Same subjects, and a success of an enabled node is kept. */
  ghost predicate ItemsKeep(g: Graph, a: seq<ItemRun>, b: seq<ItemRun>) {
    && |a| == |b|
    && (forall i :: 0 <= i < |a| ==> b[i].nodeId == a[i].nodeId && b[i].itemKey == a[i].itemKey && b[i].route == a[i].route)
    && (forall i :: 0 <= i < |a| && Enabled(g, a[i].nodeId) && a[i].status == Success ==> b[i].status == Success)
  }

  ghost predicate GroupItemsKeep(a: seq<GroupItemRun>, b: seq<GroupItemRun>) {
    && |a| == |b|
    && (forall i :: 0 <= i < |a| ==> b[i].groupId == a[i].groupId && b[i].itemKey == a[i].itemKey)
    && (forall i :: 0 <= i < |a| && a[i].status == Success ==> b[i].status == Success)
  }

  lemma {:induction false} SameItemIndex(a: seq<ItemRun>, b: seq<ItemRun>, nodeId: Id, itemKey: string)
    requires |a| == |b| && forall i :: 0 <= i < |a| ==> b[i].nodeId == a[i].nodeId && b[i].itemKey == a[i].itemKey
    ensures ItemIndex(a, nodeId, itemKey) == ItemIndex(b, nodeId, itemKey)
  {
    if a == [] {
    } else {
      SameItemIndex(a[1..], b[1..], nodeId, itemKey);
    }
  }

  lemma {:induction false} SameGroupItemIndex(a: seq<GroupItemRun>, b: seq<GroupItemRun>, groupId: Id, itemKey: string)
    requires |a| == |b| && forall i :: 0 <= i < |a| ==> b[i].groupId == a[i].groupId && b[i].itemKey == a[i].itemKey
    ensures GroupItemIndex(a, groupId, itemKey) == GroupItemIndex(b, groupId, itemKey)
  {
    if a == [] {
    } else {
      SameGroupItemIndex(a[1..], b[1..], groupId, itemKey);
    }
  }

  lemma SatisfiedStays(g: Graph, a: seq<ItemRun>, ga: seq<GroupItemRun>, b: seq<ItemRun>, gb: seq<GroupItemRun>,
                       itemKey: string, e: Link)
    requires ItemsKeep(g, a, b) && GroupItemsKeep(ga, gb)
    requires Satisfied(g, a, ga, itemKey, e)
    ensures Satisfied(g, b, gb, itemKey, e)
  {
    SameItemIndex(a, b, e.from, itemKey);
    SameGroupItemIndex(ga, gb, e.from, itemKey);
  }

  /** A dependency list that lets its subject run keeps doing so. */
  lemma QueueableStays(g: Graph, a: seq<ItemRun>, ga: seq<GroupItemRun>, b: seq<ItemRun>, gb: seq<GroupItemRun>,
                       itemKey: string, incoming: seq<Link>, any: bool)
    requires ItemsKeep(g, a, b) && GroupItemsKeep(ga, gb)
    requires DependencyOutcome(g, a, ga, itemKey, incoming, any) == ToQueue
    ensures DependencyOutcome(g, b, gb, itemKey, incoming, any) == ToQueue
  {
    forall e | e in incoming && Satisfied(g, a, ga, itemKey, e) ensures Satisfied(g, b, gb, itemKey, e) {
      SatisfiedStays(g, a, ga, b, gb, itemKey, e);
    }
  }

  // ---------------------------------------------------------------- one turn of either pass

  lemma ItemTurn(g: Graph, items: seq<ItemRun>, groupItems: seq<GroupItemRun>, x: ItemRun, y: ItemRun)
    requires ReadyItem(g, items, groupItems, x) == Some(y)
    ensures y.nodeId == x.nodeId && y.itemKey == x.itemKey && y.route == x.route
    ensures Enabled(g, x.nodeId) && x.status == Success ==> y == x
    ensures y.status == Queued && Enabled(g, x.nodeId) && OwnerGroup(g, x.nodeId).None?
            && Incoming(g.definition.edges, x.nodeId) != [] ==>
              DependencyOutcome(g, items, groupItems, x.itemKey, Incoming(g.definition.edges, x.nodeId), WaitsForAny(g, x.nodeId))
                == ToQueue
  {
  }

  lemma GroupTurn(g: Graph, items: seq<ItemRun>, groupItems: seq<GroupItemRun>, x: GroupItemRun, y: GroupItemRun)
    requires ReadyGroupItem(g, items, groupItems, x) == Some(y)
    ensures y.groupId == x.groupId && y.itemKey == x.itemKey
    ensures x.status == Success ==> y == x
    ensures y.status == Queued && Incoming(g.definition.edges, x.groupId) != [] ==>
              DependencyOutcome(g, items, groupItems, x.itemKey, Incoming(g.definition.edges, x.groupId), false) == ToQueue
  {
  }

  lemma PassKeepsItems(g: Graph, groupItems: seq<GroupItemRun>, before: seq<ItemRun>, after: seq<ItemRun>)
    requires ReadyItems(g, groupItems, before) == Some(after)
    ensures ItemsKeep(g, before, after)
  {
    PassTurns(g, groupItems, before, after);
    forall i | 0 <= i < |before|
      ensures after[i].nodeId == before[i].nodeId && after[i].itemKey == before[i].itemKey && after[i].route == before[i].route
      ensures Enabled(g, before[i].nodeId) && before[i].status == Success ==> after[i].status == Success
    {
      ItemTurn(g, AtTurn(before, after, i), groupItems, before[i], after[i]);
    }
  }

  lemma MidKeeps(g: Graph, before: seq<ItemRun>, after: seq<ItemRun>, k: nat)
    requires ItemsKeep(g, before, after) && k <= |before|
    ensures ItemsKeep(g, AtTurn(before, after, k), after)
  {
  }

  /** Every queued item of a completed item pass is queued on the strength of the items the pass ends with. */
  lemma ItemPassSafe(g: Graph, groupItems: seq<GroupItemRun>, before: seq<ItemRun>, after: seq<ItemRun>, k: nat)
    requires ReadyItems(g, groupItems, before) == Some(after) && k < |after|
    ensures after[k].status == Queued && Enabled(g, after[k].nodeId) && OwnerGroup(g, after[k].nodeId).None?
            && Incoming(g.definition.edges, after[k].nodeId) != [] ==>
              DependencyOutcome(g, after, groupItems, after[k].itemKey, Incoming(g.definition.edges, after[k].nodeId),
                                WaitsForAny(g, after[k].nodeId)) == ToQueue
  {
    var mid := AtTurn(before, after, k);
    PassTurns(g, groupItems, before, after);
    PassKeepsItems(g, groupItems, before, after);
    MidKeeps(g, before, after, k);
    ItemTurn(g, mid, groupItems, before[k], after[k]);
    var x := after[k];
    if x.status == Queued && Enabled(g, x.nodeId) && OwnerGroup(g, x.nodeId).None? && Incoming(g.definition.edges, x.nodeId) != [] {
      QueueableStays(g, mid, groupItems, after, groupItems, x.itemKey, Incoming(g.definition.edges, x.nodeId), WaitsForAny(g, x.nodeId));
    }
  }

  lemma {:induction false} GroupPassSafe(g: Graph, items: seq<ItemRun>, before: seq<GroupItemRun>, i: nat, after: seq<GroupItemRun>)
    requires i <= |before| && ReadyGroupsFrom(g, items, before, i) == Some(after)
    ensures GroupItemsKeep(before, after)
    ensures forall k :: 0 <= k < i ==> after[k] == before[k]
    ensures forall k :: i <= k < |after| && after[k].status == Queued && Incoming(g.definition.edges, after[k].groupId) != [] ==>
              DependencyOutcome(g, items, after, after[k].itemKey, Incoming(g.definition.edges, after[k].groupId), false) == ToQueue
    decreases |before| - i
  {
    if i < |before| {
      var y := ReadyGroupItem(g, items, before, before[i]).value;
      GroupTurn(g, items, before, before[i], y);
      GroupPassSafe(g, items, before[i := y], i + 1, after);
      assert ItemsKeep(g, items, items);
      assert GroupItemsKeep(before, after);
      if y.status == Queued && Incoming(g.definition.edges, y.groupId) != [] {
        QueueableStays(g, items, before, items, after, y.itemKey, Incoming(g.definition.edges, y.groupId), false);
      }
    } else {
      assert GroupItemsKeep(before, after);
    }
  }

  // ---------------------------------------------------------------- launch safety

  /** No dependency, or enough of them satisfied: all, or one where any will do. */
  ghost predicate DependenciesMet(g: Graph, run: Run, subject: Id, itemKey: string, any: bool) {
    var incoming := Incoming(g.definition.edges, subject);
    || incoming == []
    || (if any then exists e :: e in incoming && Satisfied(g, run.items, run.groupItems, itemKey, e)
        else forall e :: e in incoming ==> Satisfied(g, run.items, run.groupItems, itemKey, e))
  }

  ghost predicate MayRun(g: Graph, run: Run, c: Candidate)
    requires c in Candidates(g, run)
  {
    match c
    case GroupItem(i) => DependenciesMet(g, run, run.groupItems[i].groupId, run.groupItems[i].itemKey, false)
    case NodeItem(i) => DependenciesMet(g, run, run.items[i].nodeId, run.items[i].itemKey, WaitsForAny(g, run.items[i].nodeId))
  }

  /** The two halves of a completed pass: what the items and the group items were, and became. */
  lemma PassParts(g: Graph, itemKeys: seq<string>, now: int, run: Run, after: Run)
    requires ReadinessPass(g, itemKeys, now, run) == Completed(after)
    ensures var start := EnsureItems(g, itemKeys, run);
            && ReadyItems(g, start.groupItems, start.items) == Some(after.items)
            && ReadyGroupsFrom(g, after.items, start.groupItems, 0) == Some(after.groupItems)
  {
    KeepTwice(g, run, itemKeys);
  }

  /** For any workflow, any run and any order of its items. */
  lemma LaunchSafe(g: Graph, itemKeys: seq<string>, now: int, run: Run, after: Run, c: Candidate)
    requires ReadinessPass(g, itemKeys, now, run) == Completed(after)
    requires c in Candidates(g, after)
    ensures MayRun(g, after, c)
  {
    var start := EnsureItems(g, itemKeys, run);
    PassParts(g, itemKeys, now, run, after);
    GroupPassSafe(g, after.items, start.groupItems, 0, after.groupItems);
    match c
    case NodeItem(k) => ItemLaunchSafe(g, start, after, k);
    case GroupItem(k) => GroupLaunchSafe(g, after, k);
  }

  lemma GroupLaunchSafe(g: Graph, after: Run, k: nat)
    requires k < |after.groupItems|
    requires Incoming(g.definition.edges, after.groupItems[k].groupId) != [] ==>
               DependencyOutcome(g, after.items, after.groupItems, after.groupItems[k].itemKey,
                                 Incoming(g.definition.edges, after.groupItems[k].groupId), false) == ToQueue
    ensures DependenciesMet(g, after, after.groupItems[k].groupId, after.groupItems[k].itemKey, false)
  {
  }

  lemma ItemLaunchSafe(g: Graph, start: Run, after: Run, k: nat)
    requires ReadyItems(g, start.groupItems, start.items) == Some(after.items)
    requires GroupItemsKeep(start.groupItems, after.groupItems)
    requires k < |after.items| && Runnable(g, after, after.items[k])
    ensures DependenciesMet(g, after, after.items[k].nodeId, after.items[k].itemKey, WaitsForAny(g, after.items[k].nodeId))
  {
    var x := after.items[k];
    var incoming, any := Incoming(g.definition.edges, x.nodeId), WaitsForAny(g, x.nodeId);
    ItemPassSafe(g, start.groupItems, start.items, after.items, k);
    assert ItemsKeep(g, after.items, after.items);
    if incoming != [] {
      QueueableStays(g, after.items, start.groupItems, after.items, after.groupItems, x.itemKey, incoming, any);
    }
  }

  /** The group pass finds the group items as the item pass left them. */
  lemma KeepTwice(g: Graph, run: Run, itemKeys: seq<string>)
    ensures KeepGroupItems(g, EnsureItems(g, itemKeys, run).groupItems) == EnsureItems(g, itemKeys, run).groupItems
  {
    var kept := KeepGroupItems(g, run.groupItems);
    AddAllKnown(g, itemKeys, kept);
    var items := EnsureItems(g, itemKeys, run).groupItems;
    FilterAll(items, (x: GroupItemRun) => x.groupId in GroupIds(g.groups));
  }

  lemma {:induction false} AddAllKnown(g: Graph, itemKeys: seq<string>, items: seq<GroupItemRun>)
    requires forall x :: x in items ==> x.groupId in GroupIds(g.groups)
    ensures forall x :: x in AddAllGroupItems(g, itemKeys, items) ==> x.groupId in GroupIds(g.groups)
  {
    if itemKeys == [] {
    } else {
      assert forall i :: 0 <= i < |g.groups| ==> GroupIds(g.groups)[i] == g.groups[i].id;
      AddKnown(g, g.groups, itemKeys[0], KeepGroupItems(g, items));
      AddAllKnown(g, itemKeys[1..], AddGroupItems(g, g.groups, itemKeys[0], KeepGroupItems(g, items)));
    }
  }

  lemma {:induction false} AddKnown(g: Graph, groups: seq<Group>, itemKey: string, items: seq<GroupItemRun>)
    requires forall x :: x in groups ==> x.id in GroupIds(g.groups)
    requires forall x :: x in items ==> x.groupId in GroupIds(g.groups)
    ensures forall x :: x in AddGroupItems(g, groups, itemKey, items) ==> x.groupId in GroupIds(g.groups)
  {
    if groups == [] {
    } else {
      var id := groups[0].id;
      AddKnown(g, groups[1..], itemKey,
               if GetGroupItem(items, id, itemKey).Some? then items
               else items + [GroupItemRun(id, itemKey, InitialGroupStatus(g, id), 0, [])]);
    }
  }
}
