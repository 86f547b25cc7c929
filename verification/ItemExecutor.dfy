/** What executing one item does to the run, stretch by stretch, and what follows for attempts and times to wake. */
module ItemExecutor {
  import opened Common
  import opened Digraph
  import opened Workflow
  import opened WorkflowGraph
  import opened StateMachine
  import opened RunModel
  import opened Retry
  import opened Readiness
  import opened LaunchSafety
  import opened Runs
  import opened Scheduling
  import opened Drain
  import opened DrainTasks

  // ---------------------------------------------------------------- promotion

  /** An edge along which a finished item promotes an item. */
  predicate Promoting(g: Graph, e: Link) {
    Unlabelled(e) && !Cross(g, e.(when := None)) && !IsGroup(g, e.to)
  }

  /** Item k is the first of its node and key, some promoting edge leads to its node, and it may be queued. */
  predicate Promoted(g: Graph, items: seq<ItemRun>, itemKey: string, outgoing: seq<Link>, k: nat)
    requires k < |items|
  {
    CanPromote(items[k]) && exists e :: e in outgoing && Promoting(g, e) && ItemIndex(items, e.to, itemKey) == k
  }

  /** One promotion takes its own target off the list of those still to be promoted. */
  lemma PromotedNext(g: Graph, items: seq<ItemRun>, itemKey: string, outgoing: seq<Link>, d: nat, k: nat)
    requires outgoing != [] && Promoting(g, outgoing[0]) && d == ItemIndex(items, outgoing[0].to, itemKey)
    requires d < |items| && CanPromote(items[d]) && k < |items|
    ensures var next := items[d := items[d].(status := Queued)];
            Promoted(g, items, itemKey, outgoing, k) <==> k == d || Promoted(g, next, itemKey, outgoing[1..], k)
  {
    var next := items[d := items[d].(status := Queued)];
    assert outgoing == [outgoing[0]] + outgoing[1..];
    forall e: Link ensures ItemIndex(next, e.to, itemKey) == ItemIndex(items, e.to, itemKey) {
      SameItemIndex(next, items, e.to, itemKey);
    }
    hide ItemIndex;
  }

  lemma PromotedSkip(g: Graph, items: seq<ItemRun>, itemKey: string, outgoing: seq<Link>, k: nat)
    requires outgoing != [] && k < |items|
    requires Promoting(g, outgoing[0]) ==>
               var d := ItemIndex(items, outgoing[0].to, itemKey); d == |items| || !CanPromote(items[d])
    ensures Promoted(g, items, itemKey, outgoing, k) <==> Promoted(g, items, itemKey, outgoing[1..], k)
  {
    assert outgoing == [outgoing[0]] + outgoing[1..];
  }

  /** Promotion queues exactly those items, whatever else they depend on, and changes nothing else about items. */
  lemma {:induction false} PromotedExactly(g: Graph, run: Run, itemKey: string, outgoing: seq<Link>)
    ensures var after := Promote(g, run, itemKey, outgoing).items;
            && |after| == |run.items|
            && forall k :: 0 <= k < |run.items| ==>
                 after[k] == if Promoted(g, run.items, itemKey, outgoing, k) then run.items[k].(status := Queued) else run.items[k]
    decreases |outgoing|
  {
    hide Promoted, ItemIndex, PromoteGroup, CanPromote, Unlabelled, Cross, IsGroup;
    if outgoing == [] {
      forall k | 0 <= k < |run.items| ensures !Promoted(g, run.items, itemKey, [], k) { NobodyPromoted(g, run.items, itemKey, k); }
    } else {
      var e := outgoing[0];
      var d := ItemIndex(run.items, e.to, itemKey);
      if Promoting(g, e) && d < |run.items| && CanPromote(run.items[d]) {
        var next := run.(items := run.items[d := run.items[d].(status := Queued)]);
        PromotedExactly(g, next, itemKey, outgoing[1..]);
        forall k | 0 <= k < |run.items|
          ensures Promoted(g, run.items, itemKey, outgoing, k) <==> k == d || Promoted(g, next.items, itemKey, outgoing[1..], k)
        {
          PromotedNext(g, run.items, itemKey, outgoing, d, k);
        }
      } else {
        var next := if Unlabelled(e) && !Cross(g, e.(when := None)) && IsGroup(g, e.to) then PromoteGroup(g, run, e.to, itemKey) else run;
        GroupKeepsItems(g, run, e.to, itemKey);
        PromotedExactly(g, next, itemKey, outgoing[1..]);
        forall k | 0 <= k < |run.items|
          ensures Promoted(g, run.items, itemKey, outgoing, k) <==> Promoted(g, run.items, itemKey, outgoing[1..], k)
        {
          PromotedSkip(g, run.items, itemKey, outgoing, k);
        }
      }
    }
  }

  lemma NobodyPromoted(g: Graph, items: seq<ItemRun>, itemKey: string, k: nat)
    requires k < |items|
    ensures !Promoted(g, items, itemKey, [], k)
  {
  }

  lemma GroupKeepsItems(g: Graph, run: Run, groupId: Id, itemKey: string)
    ensures PromoteGroup(g, run, groupId, itemKey).items == run.items
  {
  }

  // ---------------------------------------------------------------- when the node raises

  /** The status of the first node with an id, if there is one. */
  function NodeStatus(run: Run, id: Id): Option<Status> {
    var k := NodeIndex(run.nodes, id);
    if k < |run.nodes| then Some(run.nodes[k].status) else None
  }

  /** Without a command a status can become running, success or failed from these. */
  lemma MarkExactly(run: Run, id: Id)
    ensures var at := NodeStatus(run, id);
            && (MarkNode(run, id, Running).None? <==> at.Some? && at.value !in {Queued, Running})
            && (MarkNode(run, id, Success).None? <==> at.Some? && at.value !in {Running, Success})
            && (MarkNode(run, id, Failed).None? <==> at.Some? && at.value !in {Queued, Running, Failed})
  {
    hide NodeIndex;
  }

  /** Marking a node that is there gives it the status, and otherwise nothing changes. */
  lemma MarkedStatus(run: Run, id: Id, status: Status)
    requires MarkNode(run, id, status).Some?
    ensures var after := MarkNode(run, id, status).value;
            && NodeStatus(after, id) == (if NodeStatus(run, id).Some? then Some(status) else None)
            && after.items == run.items
            && (NodeStatus(run, id).None? ==> after == run)
  {
    var k := NodeIndex(run.nodes, id);
    if k < |run.nodes| {
      var after := run.nodes[k := run.nodes[k].(status := status)];
      assert after[k].id == id && forall x :: 0 <= x < k ==> after[x] == run.nodes[x];
    }
  }

  /** An agent run can begin exactly at a node that is queued or running: not at one where another item has ended. */
  lemma BeginRaisesExactly(cfg: Config, s: State, i: nat)
    requires Allowed(cfg, s, Begin(i))
    ensures var at := NodeStatus(s.run, s.run.items[i].nodeId);
            Step(cfg, s, Begin(i)).phase.Crashed? <==> at.Some? && at.value !in {Queued, Running}
  {
    MarkExactly(s.run, s.run.items[i].nodeId);
    hide MarkNode, NodeStatus;
  }

  /** It can end unless its node has ended otherwise meanwhile; a success that raises is caught and becomes a failure. */
  lemma EndRaisesExactly(cfg: Config, s: State, i: nat)
    requires Allowed(cfg, s, End(i))
    ensures var at, ok := NodeStatus(s.run, s.run.items[i].nodeId), VerdictOf(cfg, s.run.items[i].nodeId).Succeed?;
            var t := Step(cfg, s, End(i));
            && (t.phase.Crashed? <==> at.Some? && at.value !in {Queued, Running, Failed} && !(ok && at.value == Success))
            && (!t.phase.Crashed? && ok ==>
                  i in t.ended && (t.ended[i] == Succeed <==> at.None? || at.value in {Running, Success}))
  {
    MarkExactly(s.run, s.run.items[i].nodeId);
    hide MarkNode, NodeStatus;
  }

  // ---------------------------------------------------------------- attempts

  /** What holds of the run and is kept by looks and launches is kept by the inner loop. */
  lemma {:induction false} LaunchAllKeeps(cfg: Config, s: State, batch: seq<Candidate>, inv: Run -> bool)
    requires inv(s.run) && forall t: State, i: nat :: inv(t.run) && i < |t.run.items| ==> inv(Launch(cfg, t, i).run)
    ensures inv(LaunchAll(cfg, s, batch).run)
    decreases |batch|
  {
    hide Launch;
    if batch == [] {
    } else if batch[0].NodeItem? && batch[0].index < |s.run.items| {
      LaunchAllKeeps(cfg, Launch(cfg, s, batch[0].index), batch[1..], inv);
    } else {
      LaunchAllKeeps(cfg, s, batch[1..], inv);
    }
  }

  lemma {:induction false} FillKeeps(cfg: Config, look: Look, aborted: bool, s: State, inv: Run -> bool)
    requires inv(s.run) && forall t: State, i: nat :: inv(t.run) && i < |t.run.items| ==> inv(Launch(cfg, t, i).run)
    requires forall run :: inv(run) && look(run).Some? ==> inv(look(run).value.run)
    ensures inv(Fill(cfg, look, aborted, s).run)
    decreases Limit(cfg) - s.executed
  {
    hide LaunchAll;
    if s.stop || aborted || Active(s) >= MaxConcurrency(cfg) || s.executed >= Limit(cfg) || look(s.run).None? {
    } else {
      var found := look(s.run).value;
      var batch := FirstOf(found.candidates, MaxConcurrency(cfg) - Active(s));
      LaunchAllKeeps(cfg, s.(run := found.run), batch, inv);
      if found.candidates != [] && !cfg.manualTick { FillKeeps(cfg, look, aborted, Round(cfg, s, found), inv); }
    }
  }

  /** The attempts an item may have: those it had, or those its node allows. */
  function Allowance(g: Graph, x: ItemRun): int {
    if x.attempt > MaxAttempts(g, x.nodeId) then x.attempt else MaxAttempts(g, x.nodeId)
  }

  ghost predicate WithinAllowance(g: Graph, base: seq<ItemRun>, run: Run) {
    && Known(run)
    && Subjects(run.items) == Subjects(base)
    && forall i :: 0 <= i < |base| ==> run.items[i].attempt <= Allowance(g, base[i])
  }

  lemma SameAttempts(g: Graph, base: seq<ItemRun>, a: Run, b: Run)
    requires WithinAllowance(g, base, a) && SameShape(a, b) && forall i :: 0 <= i < |a.items| ==> b.items[i].attempt == a.items[i].attempt
    ensures WithinAllowance(g, base, b)
  {
    KnownAfter(a, b);
  }

  lemma LaunchWithin(cfg: Config, base: seq<ItemRun>, s: State, i: nat)
    requires WithinAllowance(cfg.g, base, s.run) && i < |s.run.items|
    ensures WithinAllowance(cfg.g, base, Launch(cfg, s, i).run)
  {
    var t := Launch(cfg, s, i);
    assert Subjects(s.run.items)[i] == Subjects(base)[i];
    assert Subjects(t.run.items) == Subjects(s.run.items);
    KnownAfter(s.run, t.run);
    hide Known, MaxAttempts;
  }

  lemma LookWithin(cfg: Config, now: int, base: seq<ItemRun>, run: Run)
    requires NodesOnly(cfg.g) && WithinAllowance(cfg.g, base, run) && LookAt(cfg, now)(run).Some?
    ensures WithinAllowance(cfg.g, base, LookAt(cfg, now)(run).value.run)
  {
    LookIsFaithful(cfg, now);
    assert Handover(cfg, run, LookAt(cfg, now)(run).value);
    hide LookAt, Faithful, NodesOnly, Known, FreshBatch;
    SameAttempts(cfg.g, base, run, LookAt(cfg, now)(run).value.run);
  }

  lemma FillWithin(cfg: Config, now: int, aborted: bool, base: seq<ItemRun>, s: State)
    requires NodesOnly(cfg.g) && WithinAllowance(cfg.g, base, s.run)
    ensures WithinAllowance(cfg.g, base, Fill(cfg, LookAt(cfg, now), aborted, s).run)
  {
    hide LookAt, WithinAllowance, NodesOnly, Launch, Fill;
    var look, inv := LookAt(cfg, now), (run: Run) => WithinAllowance(cfg.g, base, run);
    forall t: State, i: nat | inv(t.run) && i < |t.run.items| ensures inv(Launch(cfg, t, i).run) { LaunchWithin(cfg, base, t, i); }
    forall run | inv(run) && look(run).Some? ensures inv(look(run).value.run) { LookWithin(cfg, now, base, run); }
    FillKeeps(cfg, look, aborted, s, inv);
    assert inv(Fill(cfg, look, aborted, s).run);
  }

  lemma BodyWithin(cfg: Config, now: int, aborted: bool, base: seq<ItemRun>, s: State)
    requires NodesOnly(cfg.g) && WithinAllowance(cfg.g, base, s.run)
    ensures WithinAllowance(cfg.g, base, Body(cfg, LookAt(cfg, now), aborted, s).run)
  {
    hide LookAt, WithinAllowance, NodesOnly, Fill, SyncNodes;
    var s1 := if aborted then s.(stop := true) else s;
    FillWithin(cfg, now, aborted, base, s1);
    LeaveWithin(cfg, base, s1, LimitReached);
    LeaveWithin(cfg, base, Fill(cfg, LookAt(cfg, now), aborted, s1), NothingLeft);
  }

  lemma LeaveWithin(cfg: Config, base: seq<ItemRun>, s: State, why: ExitReason)
    requires WithinAllowance(cfg.g, base, s.run)
    ensures WithinAllowance(cfg.g, base, Leave(s, why).run)
  {
    SyncKeepsShape(s.run, Leave(s, why).run.nodes, s.run.items);
    hide Known, SyncNodes;
    SameAttempts(cfg.g, base, s.run, Leave(s, why).run);
  }

  lemma MarkWithin(cfg: Config, base: seq<ItemRun>, run: Run, id: Id, status: Status)
    requires WithinAllowance(cfg.g, base, run) && MarkNode(run, id, status).Some?
    ensures WithinAllowance(cfg.g, base, MarkNode(run, id, status).value)
  {
    MarkKeepsShape(run, id, status);
    hide MarkNode, Known;
    SameAttempts(cfg.g, base, run, MarkNode(run, id, status).value);
  }

  lemma FinishWithin(cfg: Config, base: seq<ItemRun>, s: State, i: nat)
    requires WithinAllowance(cfg.g, base, s.run) && i in s.ended && i < |s.run.items|
    ensures WithinAllowance(cfg.g, base, Finish(cfg, s, i).run)
  {
    var x, verdict := s.run.items[i], s.ended[i];
    var items := s.run.items[i := x.(status := if verdict.Succeed? then Success else Failed,
                                     route := if Enveloped(verdict) then None else x.route)];
    var run, outgoing := s.run.(items := items), Outgoing(cfg.g.definition.edges, x.nodeId);
    assert Subjects(items) == Subjects(s.run.items);
    PromotePreserves(cfg.g, run, x.itemKey, outgoing);
    hide Known, Promote, Outgoing, TransitionStatus;
    SameAttempts(cfg.g, base, s.run, run);
    SameAttempts(cfg.g, base, run, Promote(cfg.g, run, x.itemKey, outgoing));
    hide WithinAllowance, Preserves;
  }

  lemma StepWithin(cfg: Config, base: seq<ItemRun>, s: State, input: Input)
    requires NodesOnly(cfg.g) && WithinAllowance(cfg.g, base, s.run) && Allowed(cfg, s, input)
    ensures WithinAllowance(cfg.g, base, Step(cfg, s, input).run)
  {
    hide WithinAllowance, NodesOnly, MarkNode, LookAt, Body, Finish, SyncNodes;
    match input
    case Begin(i) =>
      if MarkNode(s.run, s.run.items[i].nodeId, Running).Some? { MarkWithin(cfg, base, s.run, s.run.items[i].nodeId, Running); }
    case End(i) =>
      var id := s.run.items[i].nodeId;
      if MarkNode(s.run, id, Success).Some? { MarkWithin(cfg, base, s.run, id, Success); }
      if MarkNode(s.run, id, Failed).Some? { MarkWithin(cfg, base, s.run, id, Failed); }
    case Done(i) => FinishWithin(cfg, base, s, i);
    case Resume(seen, gone, now, aborted) => BodyWithin(cfg, now, aborted, base, Collect(s, seen, gone, aborted));
    case AllDone => LeaveWithin(cfg, base, s.(settled := map[]), TickDone);
  }

  /** In every drain of a seeded run: no item is ever attempted more often than its node allows. */
  lemma AttemptsBounded(cfg: Config, run: Run, states: seq<State>, k: nat)
    requires Known(run) && IsDrain(cfg, run, states) && k < |states|
    ensures var items := states[k].run.items;
            && |items| == |run.items|
            && forall i :: 0 <= i < |items| ==> items[i].nodeId == run.items[i].nodeId && items[i].attempt <= Allowance(cfg.g, run.items[i])
  {
    var now, aborted :| states[0] == Start(cfg, now, aborted, run);
    assert WithinAllowance(cfg.g, run.items, run);
    var next, inv := (a: State, b: State) => Next(cfg, a, b), (s: State) => WithinAllowance(cfg.g, run.items, s.run);
    BodyWithin(cfg, now, aborted, run.items, Initial(run));
    forall a, b | inv(a) && next(a, b) ensures inv(b) {
      var input :| Allowed(cfg, a, input) && b == Step(cfg, a, input);
      StepWithin(cfg, run.items, a, input);
    }
    Invariance(states, next, inv);
    assert inv(states[k]);
    assert forall i :: 0 <= i < |run.items| ==> Subjects(states[k].run.items)[i] == Subjects(run.items)[i];
  }

  // ---------------------------------------------------------------- times to wake

  /** No item has a time at which to wake it. */
  ghost predicate Sleepless(run: Run) {
    Known(run) && forall x :: x in run.items ==> !x.wakeAt.WakeTime?
  }

  lemma TurnSleepless(g: Graph, items: seq<ItemRun>, groupItems: seq<GroupItemRun>, x: ItemRun, y: ItemRun)
    requires ReadyItem(g, items, groupItems, x) == Some(y)
    ensures y.wakeAt in {x.wakeAt, NoWake}
  {
  }

  lemma PassSleepless(g: Graph, groupItems: seq<GroupItemRun>, before: seq<ItemRun>, after: seq<ItemRun>)
    requires ReadyItems(g, groupItems, before) == Some(after) && forall x :: x in before ==> !x.wakeAt.WakeTime?
    ensures forall x :: x in after ==> !x.wakeAt.WakeTime?
  {
    hide ReadyItem, ReadyItems;
    PassTurns(g, groupItems, before, after);
    forall i | 0 <= i < |before| ensures !after[i].wakeAt.WakeTime? {
      TurnSleepless(g, AtTurn(before, after, i), groupItems, before[i], after[i]);
    }
  }

  lemma LookSleepless(cfg: Config, now: int, run: Run)
    requires NodesOnly(cfg.g) && Sleepless(run) && LookAt(cfg, now)(run).Some?
    ensures Sleepless(LookAt(cfg, now)(run).value.run)
  {
    var after := LookAt(cfg, now)(run).value.run;
    LookIsFaithful(cfg, now);
    assert Handover(cfg, run, LookAt(cfg, now)(run).value);
    KnownAfter(run, after);
    EnsureKeepsItems(cfg.g, cfg.itemKeys, run);
    PassParts(cfg.g, cfg.itemKeys, now, run, after);
    hide LookAt, Faithful, NodesOnly, Known, FreshBatch, Preserves, ReadinessPass;
    PassSleepless(cfg.g, EnsureItems(cfg.g, cfg.itemKeys, run).groupItems, run.items, after.items);
  }

  lemma LaunchSleepless(cfg: Config, s: State, i: nat)
    requires Sleepless(s.run) && i < |s.run.items|
    ensures Sleepless(Launch(cfg, s, i).run)
  {
    var t := Launch(cfg, s, i);
    assert Subjects(t.run.items) == Subjects(s.run.items);
    KnownAfter(s.run, t.run);
    hide Known, MaxAttempts;
  }

  lemma BodySleepless(cfg: Config, now: int, aborted: bool, s: State)
    requires NodesOnly(cfg.g) && Sleepless(s.run)
    ensures Sleepless(Body(cfg, LookAt(cfg, now), aborted, s).run)
  {
    hide LookAt, Sleepless, NodesOnly, Launch, Fill, SyncNodes;
    var look, inv := LookAt(cfg, now), (run: Run) => Sleepless(run);
    forall t: State, i: nat | inv(t.run) && i < |t.run.items| ensures inv(Launch(cfg, t, i).run) { LaunchSleepless(cfg, t, i); }
    forall run | inv(run) && look(run).Some? ensures inv(look(run).value.run) { LookSleepless(cfg, now, run); }
    var s1 := if aborted then s.(stop := true) else s;
    FillKeeps(cfg, look, aborted, s1, inv);
    var s2 := Fill(cfg, look, aborted, s1);
    assert inv(s2.run);
    LeaveSleepless(s1, LimitReached);
    LeaveSleepless(s2, NothingLeft);
  }

  lemma LeaveSleepless(s: State, why: ExitReason)
    requires Sleepless(s.run)
    ensures Sleepless(Leave(s, why).run)
  {
    SyncKeepsShape(s.run, Leave(s, why).run.nodes, s.run.items);
    KnownAfter(s.run, Leave(s, why).run);
    hide Known, SyncNodes;
  }

  lemma MarkSleepless(run: Run, id: Id, status: Status)
    requires Sleepless(run) && MarkNode(run, id, status).Some?
    ensures Sleepless(MarkNode(run, id, status).value)
  {
    MarkKeepsShape(run, id, status);
    KnownAfter(run, MarkNode(run, id, status).value);
    hide Known, NodeIndex;
  }

  lemma FinishSleepless(cfg: Config, s: State, i: nat)
    requires Sleepless(s.run) && i in s.ended && i < |s.run.items|
    ensures Sleepless(Finish(cfg, s, i).run)
  {
    var x, verdict := s.run.items[i], s.ended[i];
    var items := s.run.items[i := x.(status := if verdict.Succeed? then Success else Failed,
                                     route := if Enveloped(verdict) then None else x.route)];
    var run, outgoing := s.run.(items := items), Outgoing(cfg.g.definition.edges, x.nodeId);
    assert Subjects(items) == Subjects(s.run.items);
    PromotePreserves(cfg.g, run, x.itemKey, outgoing);
    PromotedExactly(cfg.g, run, x.itemKey, outgoing);
    hide Known, Promote, Outgoing, TransitionStatus, Preserves, Promoted;
    KnownAfter(s.run, run);
    KnownAfter(run, Promote(cfg.g, run, x.itemKey, outgoing));
  }

  lemma StepSleepless(cfg: Config, s: State, input: Input)
    requires NodesOnly(cfg.g) && Sleepless(s.run) && Allowed(cfg, s, input)
    ensures Sleepless(Step(cfg, s, input).run)
  {
    hide Sleepless, NodesOnly, MarkNode, LookAt, Body, Finish, SyncNodes;
    match input
    case Begin(i) =>
      if MarkNode(s.run, s.run.items[i].nodeId, Running).Some? { MarkSleepless(s.run, s.run.items[i].nodeId, Running); }
    case End(i) =>
      var id := s.run.items[i].nodeId;
      if MarkNode(s.run, id, Success).Some? { MarkSleepless(s.run, id, Success); }
      if MarkNode(s.run, id, Failed).Some? { MarkSleepless(s.run, id, Failed); }
    case Done(i) => FinishSleepless(cfg, s, i);
    case Resume(seen, gone, now, aborted) => BodySleepless(cfg, now, aborted, Collect(s, seen, gone, aborted));
    case AllDone => LeaveSleepless(s.(settled := map[]), TickDone);
  }

  /** In every drain of a seeded run whose items have no time to wake, no item is ever due. */
  lemma NobodyEverDue(cfg: Config, run: Run, states: seq<State>, k: nat, now: int)
    requires Sleepless(run) && IsDrain(cfg, run, states) && k < |states|
    ensures forall x :: x in states[k].run.items ==> !Due(now, x)
  {
    var at, aborted :| states[0] == Start(cfg, at, aborted, run);
    var next, inv := (a: State, b: State) => Next(cfg, a, b), (s: State) => Sleepless(s.run);
    BodySleepless(cfg, at, aborted, Initial(run));
    hide Sleepless, Start, NodesOnly, Step, Allowed;
    forall a, b | inv(a) && next(a, b) ensures inv(b) {
      var input :| Allowed(cfg, a, input) && b == Step(cfg, a, input);
      StepSleepless(cfg, a, input);
    }
    Invariance(states, next, inv);
    assert inv(states[k]);
    SleeplessNotDue(states[k].run, now);
  }

  lemma SleeplessNotDue(run: Run, now: int)
    requires Sleepless(run)
    ensures forall x :: x in run.items ==> !Due(now, x)
  {
  }

  // ---------------------------------------------------------------- the executor

  class Executor {
    const cfg: Config
    var run: Run

    constructor (cfg: Config, run: Run)
      ensures this.cfg == cfg && this.run == run
    {
      this.cfg, this.run := cfg, run;
    }

    /** The item runs with one more attempt, or has failed when its attempts are used up. */
    method LaunchItem(i: nat) returns (failed: bool)
      requires i < |run.items|
      modifies this`run
      ensures failed <==> old(run.items[i]).attempt >= MaxAttempts(cfg.g, old(run.items[i]).nodeId)
      ensures forall s: State | s.run == old(run) ::
                run == Launch(cfg, s, i).run && (failed ==> i in Launch(cfg, s, i).settled) && (!failed ==> i in Launch(cfg, s, i).executing)
      ensures |run.items| == |old(run.items)|
      ensures !failed ==> run.items[i].attempt <= MaxAttempts(cfg.g, run.items[i].nodeId)
    {
      var item := run.items[i];
      if item.attempt >= MaxAttempts(cfg.g, item.nodeId) {
        run := run.(items := run.items[i := item.(status := Failed)]);
        return true;
      }
      run := run.(items := run.items[i := item.(status := Running, attempt := item.attempt + 1, wakeAt := NoWake)]);
      return false;
    }

    /** The first node with the id changes its status, without a command. */
    method MarkNodeStatus(nodeId: Id, status: Status) returns (raised: bool)
      modifies this`run
      ensures raised <==> MarkNode(old(run), nodeId, status).None?
      ensures run == if raised then old(run) else MarkNode(old(run), nodeId, status).value
    {
      var k := 0;
      while k < |run.nodes| && run.nodes[k].id != nodeId
        invariant run == old(run) && k <= |run.nodes|
        invariant forall j :: 0 <= j < k ==> run.nodes[j].id != nodeId
      {
        k := k + 1;
      }
      assert k == NodeIndex(run.nodes, nodeId);
      if k == |run.nodes| { return false; }
      if TransitionStatus(run.nodes[k].status, status, None).None? { return true; }
      run := run.(nodes := run.nodes[k := run.nodes[k].(status := status)]);
      return false;
    }

    /**
     * The agent run of a node ends with `verdict`; `taken` is what its item gets to see.  It raises unless the node is
     * queued, running or failed, or succeeds again; a success that raises by itself is caught and becomes a failure.
     */
    method EndNode(nodeId: Id, verdict: Verdict) returns (raised: bool, taken: Verdict)
      modifies this`run
      ensures var at := NodeStatus(old(run), nodeId);
              && (raised <==> at.Some? && at.value !in {Queued, Running, Failed} && !(verdict.Succeed? && at.value == Success))
              && (!raised ==>
                    taken == if verdict.Succeed? && !(at.None? || at.value in {Running, Success}) then Fail(true, false) else verdict)
              && (!raised && at.Some? ==> NodeStatus(run, nodeId) == Some(OutcomeOf(taken)))
              && (raised || at.None? ==> run == old(run))
      ensures forall s: State, i: nat | s.run == old(run) && i < |s.run.items| && s.run.items[i].nodeId == nodeId && !s.phase.Crashed? ::
                VerdictOf(cfg, nodeId) == verdict ==>
                  && (raised <==> Drain.EndNode(cfg, s, i).phase.Crashed?)
                  && (!raised ==> run == Drain.EndNode(cfg, s, i).run && taken == Drain.EndNode(cfg, s, i).ended[i])
    {
      MarkExactly(run, nodeId);
      taken := verdict;
      if verdict.Succeed? {
        if MarkNode(run, nodeId, Success).Some? { MarkedStatus(run, nodeId, Success); }
        raised := MarkNodeStatus(nodeId, Success);
        if !raised { return; }
        taken := Fail(true, false);
      }
      if MarkNode(run, nodeId, Failed).Some? { MarkedStatus(run, nodeId, Failed); }
      raised := MarkNodeStatus(nodeId, Failed);
    }

    /** A finished item queues what is downstream of it. */
    method PromoteDownstream(itemKey: string, outgoing: seq<Link>)
      modifies this`run
      ensures run == Promote(cfg.g, old(run), itemKey, outgoing)
    {
      assert outgoing[0..] == outgoing;
      for k := 0 to |outgoing|
        invariant Promote(cfg.g, run, itemKey, outgoing[k..]) == Promote(cfg.g, old(run), itemKey, outgoing)
      {
        var edge := outgoing[k];
        assert outgoing[k..][1..] == outgoing[k + 1..];
        if !Unlabelled(edge) { continue; }
        if Cross(cfg.g, edge.(when := None)) { continue; }
        if IsGroup(cfg.g, edge.to) {
          run := EnsureGroupKey(cfg.g, run, itemKey);
          var d := GroupItemIndex(run.groupItems, edge.to, itemKey);
          if d < |run.groupItems| && CanPromoteGroup(run.groupItems[d]) {
            run := run.(groupItems := run.groupItems[d := run.groupItems[d].(status := Queued)]);
          }
          continue;
        }
        var d := ItemIndex(run.items, edge.to, itemKey);
        if d == |run.items| { continue; }
        if CanPromote(run.items[d]) {
          run := run.(items := run.items[d := run.items[d].(status := Queued)]);
        }
      }
      assert outgoing[|outgoing|..] == [];
    }

    /** An item goes to sleep, without a command: its status first, then the time to wake it. */
    method MarkItemWaiting(i: nat, wakeAt: int) returns (raised: bool)
      requires i < |run.items|
      modifies this`run
      ensures raised <==> TransitionStatus(old(run.items[i]).status, Waiting, None).None?
      ensures run == if raised then old(run)
                     else old(run).(items := old(run.items)[i := old(run.items[i]).(status := Waiting, wakeAt := WakeTime(wakeAt))])
    {
      if TransitionStatus(run.items[i].status, Waiting, None).None? { return true; }
      run := run.(items := run.items[i := run.items[i].(status := Waiting, wakeAt := WakeTime(wakeAt))]);
      return false;
    }

    /**
     * Status, route, sleep and promotion, without an await in between; `sleepUntil` is the time that the envelope asks
     * to sleep until, if it can be read.  A status change that raises leaves everything as it was.  A sleep always
     * raises, and leaves status and route but promotes nothing.  No item is ever given a time to wake it.
     */
    method FinishItem(i: nat, verdict: Verdict, sleepUntil: Option<int>) returns (raised: bool)
      requires i < |run.items|
      modifies this`run
      ensures raised <==> Refused(old(run.items[i]).status, verdict) || (Enveloped(verdict) && sleepUntil.Some?)
      ensures Refused(old(run.items[i]).status, verdict) ==> run == old(run)
      ensures raised && !Refused(old(run.items[i]).status, verdict) ==>
                run == old(run).(items := old(run.items)[i := old(run.items[i]).(status := OutcomeOf(verdict), route := None)])
      ensures !raised ==> |run.items| == |old(run.items)| && run.items[i].status == OutcomeOf(verdict)
      ensures !raised ==> run == FinishedRun(cfg, old(run), i, verdict)
      ensures |run.items| == |old(run.items)|
      ensures forall k :: 0 <= k < |run.items| ==> run.items[k].wakeAt == old(run.items)[k].wakeAt
    {
      hide Promote, Outgoing;
      var item := run.items[i];
      var status := if verdict.Succeed? then Success else Failed;
      if TransitionStatus(item.status, status, None).None? { return true; }
      item := item.(status := status, route := if Enveloped(verdict) then None else item.route);
      run := run.(items := run.items[i := item]);
      if Enveloped(verdict) {
        if sleepUntil.Some? {
          SleepRaises(status);
          raised := MarkItemWaiting(i, sleepUntil.value);
          if raised { return; }
        }
        PromotedExactly(cfg.g, run, item.itemKey, Outgoing(cfg.g.definition.edges, item.nodeId));
        PromoteDownstream(item.itemKey, Outgoing(cfg.g.definition.edges, item.nodeId));
      }
      return false;
    }
  }

  function OutcomeOf(verdict: Verdict): Status { if verdict.Succeed? then Success else Failed }

  /** An item with this status cannot take over such a result. */
  predicate Refused(status: Status, verdict: Verdict) {
    status !in if verdict.Succeed? then {Running, Success} else {Queued, Running, Failed}
  }

  /** The run that a drain's step has when an item takes over its result. */
  function FinishedRun(cfg: Config, run: Run, i: nat, verdict: Verdict): Run
    requires i < |run.items|
  {
    Finish(cfg, Initial(run).(ended := map[i := verdict]), i).run
  }
}
