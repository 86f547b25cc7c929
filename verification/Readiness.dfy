/** The readiness pass: which items may run, must wait or are skipped, given their dependencies. */
module Readiness {
  import opened Common
  import opened Digraph
  import opened Workflow
  import opened WorkflowGraph
  import opened StateMachine
  import opened RunModel
  import opened Retry

  const MAINLINE := "yes"

  // ---------------------------------------------------------------- one dependency

  /** A missing condition and an empty one are alike here, though not for a disabled source. */
  predicate Unlabelled(e: Link) { e.when.None? || e.when.value == "" }

  predicate Satisfied(g: Graph, items: seq<ItemRun>, groupItems: seq<GroupItemRun>, itemKey: string, e: Link) {
    if Cross(g, e) then false
    else if IsGroup(g, e.from) then
      var source := GetGroupItem(groupItems, e.from, itemKey);
      source.Some? && source.value.status == Success
    else if !Enabled(g, e.from) then e.when.None?
    else
      var source := GetItem(items, e.from, itemKey);
      && source.Some?
      && source.value.status == Success
      && (if Unlabelled(e) then IsRouteNode(g, e.from) ==> source.value.route == Some(MAINLINE)
          else source.value.route == e.when)
  }

  predicate Impossible(g: Graph, items: seq<ItemRun>, groupItems: seq<GroupItemRun>, itemKey: string, e: Link) {
    if Cross(g, e) then true
    else if IsGroup(g, e.from) then
      var source := GetGroupItem(groupItems, e.from, itemKey);
      source.Some? && source.value.status in {Failed, Skipped}
    else if !Enabled(g, e.from) then e.when.Some?
    else
      var source := GetItem(items, e.from, itemKey);
      && source.Some?
      && (|| source.value.status in {Failed, Skipped, Stopped}
          || (source.value.status == Success && e.when.None? && IsRouteNode(g, e.from) && source.value.route != Some(MAINLINE))
          || (source.value.status == Success && !Unlabelled(e) && source.value.route != e.when))
  }

  // ---------------------------------------------------------------- all dependencies of a subject

  /** How a list of dependencies stands: enough are satisfied, some are open, or it can no longer run. */
  datatype Outcome = ToQueue | ToWait | ToSkip

  function DependencyOutcome(g: Graph, items: seq<ItemRun>, groupItems: seq<GroupItemRun>, itemKey: string,
                             incoming: seq<Link>, any: bool): Outcome {
    if any then
      if exists e :: e in incoming && Satisfied(g, items, groupItems, itemKey, e) then ToQueue
      else if forall e :: e in incoming ==> Impossible(g, items, groupItems, itemKey, e) then ToSkip
      else ToWait
    else
      if forall e :: e in incoming ==> Satisfied(g, items, groupItems, itemKey, e) then ToQueue
      else if forall e :: e in incoming ==>
                Satisfied(g, items, groupItems, itemKey, e) || Impossible(g, items, groupItems, itemKey, e) then ToSkip
      else ToWait
  }

  /** The two counters of the loop, and the decision taken from them. */
  method Tally(incoming: seq<Link>, satisfies: Link -> bool, cannot: Link -> bool, any: bool) returns (r: Outcome)
    ensures any ==>
      && (r == ToQueue <==> exists e :: e in incoming && satisfies(e))
      && (r == ToSkip <==> forall e :: e in incoming ==> !satisfies(e) && cannot(e))
    ensures !any ==>
      && (r == ToQueue <==> forall e :: e in incoming ==> satisfies(e))
      && (r == ToSkip <==> (exists e :: e in incoming && !satisfies(e))
                           && forall e :: e in incoming ==> satisfies(e) || cannot(e))
  {
    var satisfied, impossible := 0, 0;
    for i := 0 to |incoming|
      invariant 0 <= satisfied && 0 <= impossible && satisfied + impossible <= i
      invariant satisfied == i <==> forall k :: 0 <= k < i ==> satisfies(incoming[k])
      invariant satisfied == 0 <==> forall k :: 0 <= k < i ==> !satisfies(incoming[k])
      invariant impossible == i <==> forall k :: 0 <= k < i ==> !satisfies(incoming[k]) && cannot(incoming[k])
      invariant satisfied + impossible == i <==> forall k :: 0 <= k < i ==> satisfies(incoming[k]) || cannot(incoming[k])
    {
      if satisfies(incoming[i]) {
        satisfied := satisfied + 1;
      } else if cannot(incoming[i]) {
        impossible := impossible + 1;
      }
    }
    if any {
      if satisfied > 0 { return ToQueue; }
      if impossible == |incoming| { return ToSkip; }
      return ToWait;
    }
    if satisfied == |incoming| { return ToQueue; }
    if satisfied + impossible == |incoming| && impossible > 0 { return ToSkip; }
    return ToWait;
  }

  method ResolveDependencyOutcome(g: Graph, items: seq<ItemRun>, groupItems: seq<GroupItemRun>, itemKey: string,
                                  incoming: seq<Link>, any: bool) returns (r: Outcome)
    ensures r == DependencyOutcome(g, items, groupItems, itemKey, incoming, any)
  {
    r := Tally(incoming, e => Satisfied(g, items, groupItems, itemKey, e), e => Impossible(g, items, groupItems, itemKey, e), any);
  }

  predicate WaitsForAny(g: Graph, nodeId: Id) {
    NodeById(g, nodeId).Some? && NodeById(g, nodeId).value.dependencyPolicy == Some("any")
  }

  predicate Asleep(item: ItemRun) {
    item.status == Waiting && (item.wakeAt.UnreadableWake? || item.wakeAt.WakeTime?)
  }

  predicate CanPromote(item: ItemRun) {
    item.status in {Blocked, Skipped} || (item.status == Waiting && !Asleep(item))
  }

  function WithStatus(item: ItemRun, next: Status, command: Option<Command>): Option<ItemRun> {
    if TransitionStatus(item.status, next, command).None? then None else Some(item.(status := next))
  }

  // ---------------------------------------------------------------- the pass over items

  /** What the pass makes of one item at its turn; None when the transition raises. */
  function ReadyItem(g: Graph, items: seq<ItemRun>, groupItems: seq<GroupItemRun>, item: ItemRun): Option<ItemRun> {
    var incoming := Incoming(g.definition.edges, item.nodeId);
    if !Enabled(g, item.nodeId) then
      WithStatus(item.(wakeAt := NoWake), Skipped, None)
    else if item.status in {Running, Success, Failed, Stopped} || Asleep(item) then
      Some(item)
    else if OwnerGroup(g, item.nodeId).Some? then
      WithStatus(item, Blocked, Some(Dependency))
    else if incoming == [] then
      if CanPromote(item) then WithStatus(item, Queued, Some(Dependency)) else Some(item)
    else
      match DependencyOutcome(g, items, groupItems, item.itemKey, incoming, WaitsForAny(g, item.nodeId))
      case ToQueue => WithStatus(item, Queued, Some(Dependency))
      case ToWait => WithStatus(item, Waiting, Some(Dependency))
      case ToSkip => WithStatus(item.(wakeAt := NoWake), Skipped, Some(Dependency))
  }

  /** The pass from index `i` on; None when it raises on the way. */
  function ReadyFrom(g: Graph, groupItems: seq<GroupItemRun>, items: seq<ItemRun>, i: nat): (r: Option<seq<ItemRun>>)
    requires i <= |items|
    ensures r.Some? ==> |r.value| == |items|
    decreases |items| - i
  {
    if i == |items| then Some(items)
    else
      match ReadyItem(g, items, groupItems, items[i])
      case None => None
      case Some(item) => ReadyFrom(g, groupItems, items[i := item], i + 1)
  }

  function ReadyItems(g: Graph, groupItems: seq<GroupItemRun>, items: seq<ItemRun>): (r: Option<seq<ItemRun>>)
    ensures r.Some? ==> |r.value| == |items|
  {
    ReadyFrom(g, groupItems, items, 0)
  }

  /** The items as they stand when the pass comes to index `k`. */
  function AtTurn(before: seq<ItemRun>, after: seq<ItemRun>, k: nat): (r: seq<ItemRun>)
    requires |before| == |after| && k <= |before|
    ensures |r| == |before| && forall i :: 0 <= i < |r| ==> r[i] == if i < k then after[i] else before[i]
  {
    after[..k] + before[k..]
  }

  lemma {:induction false} PassFromTurns(g: Graph, groupItems: seq<GroupItemRun>, items: seq<ItemRun>, i: nat, after: seq<ItemRun>)
    requires i <= |items| && ReadyFrom(g, groupItems, items, i) == Some(after)
    ensures forall k :: 0 <= k < i ==> after[k] == items[k]
    ensures forall k :: i <= k < |items| ==>
              ReadyItem(g, AtTurn(items, after, k), groupItems, items[k]) == Some(after[k])
    decreases |items| - i
  {
    if i == |items| {
    } else {
      var next := items[i := ReadyItem(g, items, groupItems, items[i]).value];
      PassFromTurns(g, groupItems, next, i + 1, after);
      forall k | i <= k < |items| ensures ReadyItem(g, AtTurn(items, after, k), groupItems, items[k]) == Some(after[k]) {
        if k == i {
          assert AtTurn(items, after, i) == items;
        } else {
          assert AtTurn(items, after, k) == AtTurn(next, after, k);
        }
      }
    }
  }

  /** A completed pass treats every item against the items as they stand at its turn. */
  lemma PassTurns(g: Graph, groupItems: seq<GroupItemRun>, before: seq<ItemRun>, after: seq<ItemRun>)
    requires ReadyItems(g, groupItems, before) == Some(after)
    ensures |after| == |before|
    ensures forall k :: 0 <= k < |before| ==>
              ReadyItem(g, AtTurn(before, after, k), groupItems, before[k]) == Some(after[k])
  {
    PassFromTurns(g, groupItems, before, 0, after);
  }

  // ---------------------------------------------------------------- the pass over group items and groups

  predicate CanPromoteGroup(x: GroupItemRun) { x.status in {Blocked, Skipped, Waiting} }

  function WithGroupStatus(x: GroupItemRun, next: Status): Option<GroupItemRun> {
    if TransitionStatus(x.status, next, Some(Dependency)).None? then None else Some(x.(status := next))
  }

  /** Groups always wait for all of their dependencies. */
  function ReadyGroupItem(g: Graph, items: seq<ItemRun>, groupItems: seq<GroupItemRun>, x: GroupItemRun): Option<GroupItemRun> {
    var incoming := Incoming(g.definition.edges, x.groupId);
    if x.status in {Running, Success, Failed, Stopped} then Some(x)
    else if incoming == [] then if CanPromoteGroup(x) then WithGroupStatus(x, Queued) else Some(x)
    else
      match DependencyOutcome(g, items, groupItems, x.itemKey, incoming, false)
      case ToQueue => WithGroupStatus(x, Queued)
      case ToWait => WithGroupStatus(x, Waiting)
      case ToSkip => WithGroupStatus(x, Skipped)
  }

  function ReadyGroupsFrom(g: Graph, items: seq<ItemRun>, groupItems: seq<GroupItemRun>, i: nat): (r: Option<seq<GroupItemRun>>)
    requires i <= |groupItems|
    ensures r.Some? ==> |r.value| == |groupItems|
    decreases |groupItems| - i
  {
    if i == |groupItems| then Some(groupItems)
    else
      match ReadyGroupItem(g, items, groupItems, groupItems[i])
      case None => None
      case Some(x) => ReadyGroupsFrom(g, items, groupItems[i := x], i + 1)
  }

  /** What the group items of one group make of its status. */
  function GroupTarget(related: seq<GroupItemRun>): Status {
    if exists x :: x in related && x.status == Failed then Failed
    else if exists x :: x in related && x.status == Running then Running
    else if exists x :: x in related && x.status == Waiting then Waiting
    else if exists x :: x in related && x.status == Queued then Queued
    else if forall x :: x in related ==> x.status in {Success, Skipped} then Success
    else Blocked
  }

  function AggregateGroup(groupItems: seq<GroupItemRun>, group: GroupRun): Option<GroupRun> {
    var related := Filter(groupItems, (x: GroupItemRun) => x.groupId == group.id);
    if related == [] then Some(group)
    else if TransitionStatus(group.status, GroupTarget(related), Some(GroupAggregate)).None? then None
    else Some(group.(status := GroupTarget(related)))
  }

  function AggregateGroups(groupItems: seq<GroupItemRun>, groups: seq<GroupRun>): Option<seq<GroupRun>> {
    if groups == [] then Some([])
    else
      match AggregateGroup(groupItems, groups[0])
      case None => None
      case Some(first) =>
        match AggregateGroups(groupItems, groups[1..])
        case None => None
        case Some(rest) => Some([first] + rest)
  }

  // ---------------------------------------------------------------- the whole pass

  /** Waking an item gives no command, and the default permissions do not let a waiting item succeed. */
  predicate Due(now: int, item: ItemRun) {
    item.status == Waiting && item.wakeAt.WakeTime? && item.wakeAt.at <= now
  }

  /** `Aborted` stands for a raised error, after which nothing relies on the run. */
  datatype PassResult = Completed(run: Run) | Aborted

  function ItemPass(g: Graph, itemKeys: seq<string>, now: int, run: Run): PassResult {
    var start := EnsureItems(g, itemKeys, run);
    if exists x :: x in start.items && Due(now, x) then Aborted
    else
      match ReadyItems(g, start.groupItems, start.items)
      case None => Aborted
      case Some(items) => Completed(start.(items := items, nodes := SyncNodes(start.nodes, items)))
  }

  function GroupPass(g: Graph, run: Run): PassResult {
    var start := run.(groups := SyncGroups(g, run.groups), groupItems := KeepGroupItems(g, run.groupItems));
    match ReadyGroupsFrom(g, start.items, start.groupItems, 0)
    case None => Aborted
    case Some(groupItems) =>
      match AggregateGroups(groupItems, start.groups)
      case None => Aborted
      case Some(groups) => Completed(start.(groups := groups, groupItems := groupItems))
  }

  function ReadinessPass(g: Graph, itemKeys: seq<string>, now: int, run: Run): PassResult {
    match ItemPass(g, itemKeys, now, run)
    case Aborted => Aborted
    case Completed(next) => GroupPass(g, next)
  }

  // ---------------------------------------------------------------- picking

  datatype Candidate = GroupItem(index: nat) | NodeItem(index: nat)

  predicate Runnable(g: Graph, run: Run, x: ItemRun) {
    && x.status == Queued
    && (exists n :: n in run.nodes && n.id == x.nodeId)
    && Enabled(g, x.nodeId)
    && OwnerGroup(g, x.nodeId).None?
  }

  function GroupCandidates(run: Run, i: nat): (r: seq<Candidate>)
    requires i <= |run.groupItems|
    ensures forall c :: c in r <==> c.GroupItem? && i <= c.index < |run.groupItems| && run.groupItems[c.index].status == Queued
    decreases |run.groupItems| - i
  {
    if i == |run.groupItems| then []
    else (if run.groupItems[i].status == Queued then [GroupItem(i)] else []) + GroupCandidates(run, i + 1)
  }

  function NodeCandidates(g: Graph, run: Run, i: nat): (r: seq<Candidate>)
    requires i <= |run.items|
    ensures forall c :: c in r <==> c.NodeItem? && i <= c.index < |run.items| && Runnable(g, run, run.items[c.index])
    decreases |run.items| - i
  {
    if i == |run.items| then []
    else (if Runnable(g, run, run.items[i]) then [NodeItem(i)] else []) + NodeCandidates(g, run, i + 1)
  }

  /** Queued group items first, then runnable items, each in run order. */
  function Candidates(g: Graph, run: Run): seq<Candidate> {
    GroupCandidates(run, 0) + NodeCandidates(g, run, 0)
  }

  function FirstOf<T>(s: seq<T>, max: nat): seq<T> {
    if max <= |s| then s[..max] else s
  }

  /** One turn of either picking loop moves at most one candidate to what is taken. */
  lemma PickTurn(g: Graph, run: Run, taken: seq<Candidate>, i: nat)
    ensures i < |run.groupItems| ==>
              taken + GroupCandidates(run, i) ==
                (if run.groupItems[i].status == Queued then taken + [GroupItem(i)] else taken) + GroupCandidates(run, i + 1)
    ensures i < |run.items| ==>
              taken + NodeCandidates(g, run, i) ==
                (if Runnable(g, run, run.items[i]) then taken + [NodeItem(i)] else taken) + NodeCandidates(g, run, i + 1)
  {
  }

  class DependencyState {
    const g: Graph
    const itemKeys: seq<string>
    var run: Run

    constructor (g: Graph, itemKeys: seq<string>, run: Run)
      ensures this.g == g && this.itemKeys == itemKeys && this.run == run
    {
      this.g, this.itemKeys, this.run := g, itemKeys, run;
    }

    method WakeDueItems(now: int) returns (raised: bool)
      modifies this
      ensures run == old(run)
      ensures raised <==> exists x :: x in run.items && Due(now, x)
    {
      for k := 0 to |run.items|
        invariant run == old(run)
        invariant forall i :: 0 <= i < k ==> !Due(now, run.items[i])
      {
        if Due(now, run.items[k]) && TransitionStatus(run.items[k].status, Success, None).None? { return true; }
      }
      return false;
    }

    method MarkReadyItems(now: int) returns (raised: bool)
      modifies this
      ensures raised <==> ItemPass(g, itemKeys, now, old(run)).Aborted?
      ensures !raised ==> run == ItemPass(g, itemKeys, now, old(run)).run
    {
      run := EnsureItems(g, itemKeys, run);
      raised := WakeDueItems(now);
      if raised { return; }
      ghost var start := run;
      for i := 0 to |run.items|
        invariant run == start.(items := run.items) && |run.items| == |start.items|
        invariant ReadyFrom(g, start.groupItems, run.items, i) == ReadyItems(g, start.groupItems, start.items)
      {
        match ReadyItem(g, run.items, run.groupItems, run.items[i])
        case None => return true;
        case Some(item) => run := run.(items := run.items[i := item]);
      }
      run := run.(nodes := SyncNodes(run.nodes, run.items));
    }

    method MarkReadyGroups() returns (raised: bool)
      modifies this
      ensures raised <==> GroupPass(g, old(run)).Aborted?
      ensures !raised ==> run == GroupPass(g, old(run)).run
    {
      run := run.(groups := SyncGroups(g, run.groups), groupItems := KeepGroupItems(g, run.groupItems));
      ghost var start := run;
      for i := 0 to |run.groupItems|
        invariant run == start.(groupItems := run.groupItems) && |run.groupItems| == |start.groupItems|
        invariant ReadyGroupsFrom(g, run.items, run.groupItems, i) == ReadyGroupsFrom(g, start.items, start.groupItems, 0)
      {
        match ReadyGroupItem(g, run.items, run.groupItems, run.groupItems[i])
        case None => return true;
        case Some(x) => run := run.(groupItems := run.groupItems[i := x]);
      }
      match AggregateGroups(run.groupItems, run.groups)
      case None => return true;
      case Some(groups) => run := run.(groups := groups);
      return false;
    }

    /** Queued group items, up to `max` of them. */
    method PickGroupItems(max: nat) returns (batch: seq<Candidate>)
      requires max >= 1
      ensures batch == FirstOf(GroupCandidates(run, 0), max)
    {
      batch := [];
      for i := 0 to |run.groupItems|
        invariant |batch| < max && batch + GroupCandidates(run, i) == GroupCandidates(run, 0)
      {
        PickTurn(g, run, batch, i);
        if run.groupItems[i].status == Queued {
          batch := batch + [GroupItem(i)];
          if |batch| >= max { return; }
        }
      }
    }

    /** Runnable items after the group items already picked. */
    method PickNodeItems(max: nat, picked: seq<Candidate>) returns (batch: seq<Candidate>)
      requires |picked| < max
      ensures batch == FirstOf(picked + NodeCandidates(g, run, 0), max)
    {
      batch := picked;
      for i := 0 to |run.items|
        invariant |batch| < max && batch + NodeCandidates(g, run, i) == picked + NodeCandidates(g, run, 0)
      {
        PickTurn(g, run, batch, i);
        if Runnable(g, run, run.items[i]) {
          batch := batch + [NodeItem(i)];
          if |batch| >= max { return; }
        }
      }
    }

    method PickNextRunnableBatch(max: nat) returns (batch: seq<Candidate>)
      requires max >= 1
      ensures batch == FirstOf(Candidates(g, run), max)
    {
      batch := PickGroupItems(max);
      if |batch| >= max { return; }
      batch := PickNodeItems(max, batch);
    }
  }
}
