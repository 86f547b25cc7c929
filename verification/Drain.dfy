/**
 * The scheduler's drain: launch what is ready, wait for a task to settle, look again.
 * Between two awaits nothing interleaves, so each action below is one atomic step.
 */
module Drain {
  import opened Common
  import opened Digraph
  import opened Workflow
  import opened WorkflowGraph
  import opened StateMachine
  import opened RunModel
  import opened Retry
  import opened Readiness
  import opened Runs
  import opened Scheduling

  /**
   * Tasks are named by the index of their item: `executing` are under way, `settled` not yet collected.
   * Of those under way, `begun` have set their node running, and `ended` have the result of their
   * agent run, which their item has still to take over.
   */
  datatype State = State(
    run: Run,
    executing: set<nat>,
    begun: set<nat>,
    ended: map<nat, Verdict>,
    settled: map<nat, TaskResult>,
    executed: int,
    hardFailed: bool,
    stop: bool,
    phase: Phase)

  function Active(s: State): nat { |s.executing| + |s.settled.Keys| }

  // ---------------------------------------------------------------- launching

  /** The synchronous start of an item: it runs, unless its attempts are used up. */
  function Launch(cfg: Config, s: State, i: nat): State
    requires i < |s.run.items|
  {
    var x := s.run.items[i];
    if x.attempt >= MaxAttempts(cfg.g, x.nodeId) then
      s.(run := s.run.(items := s.run.items[i := x.(status := Failed)]), settled := s.settled[i := TaskFailed(true)])
    else
      s.(run := s.run.(items := s.run.items[i := x.(status := Running, attempt := x.attempt + 1, wakeAt := NoWake)]),
         executing := s.executing + {i})
  }

  function LaunchAll(cfg: Config, s: State, batch: seq<Candidate>): (r: State)
    ensures |r.run.items| == |s.run.items| && r == s.(run := r.run, executing := r.executing, settled := r.settled)
    decreases |batch|
  {
    if batch == [] then s
    else if batch[0].NodeItem? && batch[0].index < |s.run.items| then LaunchAll(cfg, Launch(cfg, s, batch[0].index), batch[1..])
    else LaunchAll(cfg, s, batch[1..])
  }

  /** One round of the inner loop: as many candidates as there are free slots. */
  function Round(cfg: Config, s: State, found: Found): (r: State)
    requires Active(s) < MaxConcurrency(cfg)
  {
    var batch := FirstOf(found.candidates, MaxConcurrency(cfg) - Active(s));
    LaunchAll(cfg, s.(run := found.run), batch).(executed := s.executed + |batch|)
  }

  /** The inner loop: passes and launches until nothing is ready, no slot is free or the drain is to stop. */
  function Fill(cfg: Config, look: Look, aborted: bool, s: State): (r: State)
    decreases Limit(cfg) - s.executed
  {
    if s.stop || aborted || Active(s) >= MaxConcurrency(cfg) || s.executed >= Limit(cfg) then s
    else
      match look(s.run)
      case None => s.(phase := Crashed)
      case Some(found) =>
        if found.candidates == [] then s.(run := found.run)
        else if cfg.manualTick then Round(cfg, s, found).(stop := true)
        else Fill(cfg, look, aborted, Round(cfg, s, found))
  }

  /** From the top of the outer loop to the next await, or to the end of the drain. */
  function Body(cfg: Config, look: Look, aborted: bool, s: State): State {
    var s1 := if aborted then s.(stop := true) else s;
    if s1.executed >= Limit(cfg) then Leave(s1, LimitReached)
    else
      var s2 := Fill(cfg, look, aborted, s1);
      if s2.phase.Crashed? then s2
      else if Active(s2) == 0 then Leave(s2, NothingLeft)
      else s2
  }

  /** The last act of a drain brings the node statuses up to date. */
  function Leave(s: State, why: ExitReason): State {
    s.(phase := Exited(why), run := s.run.(nodes := SyncNodes(s.run.nodes, s.run.items)))
  }

  function Initial(run: Run): State { State(run, {}, {}, map[], map[], 0, false, false, Racing) }

  function Start(cfg: Config, now: int, aborted: bool, run: Run): State {
    Body(cfg, LookAt(cfg, now), aborted, Initial(run))
  }

  // ---------------------------------------------------------------- the node of a running item

  /** The index of the first node with an id, or |nodes|. */
  function NodeIndex(nodes: seq<NodeRun>, id: Id): (k: nat)
    ensures k <= |nodes|
    ensures k < |nodes| ==> nodes[k].id == id
    ensures forall i :: 0 <= i < k ==> nodes[i].id != id
  {
    if nodes == [] || nodes[0].id == id then 0 else 1 + NodeIndex(nodes[1..], id)
  }

  /** The node of a running item changes its status without a command; None when that raises. */
  function MarkNode(run: Run, nodeId: Id, status: Status): Option<Run> {
    var k := NodeIndex(run.nodes, nodeId);
    if k == |run.nodes| then Some(run)
    else if TransitionStatus(run.nodes[k].status, status, None).None? then None
    else Some(run.(nodes := run.nodes[k := run.nodes[k].(status := status)]))
  }

  /** The session is there: the node runs. */
  function BeginNode(s: State, i: nat): State
    requires i < |s.run.items|
  {
    match MarkNode(s.run, s.run.items[i].nodeId, Running)
    case None => s.(phase := Crashed)
    case Some(run) => s.(run := run, begun := s.begun + {i})
  }

  /** The agent run is over.  A raise while the node is marked a success is caught and makes it a failure. */
  function EndNode(cfg: Config, s: State, i: nat): State
    requires i < |s.run.items|
  {
    var id := s.run.items[i].nodeId;
    var verdict := VerdictOf(cfg, id);
    if verdict.Succeed? && MarkNode(s.run, id, Success).Some? then
      s.(run := MarkNode(s.run, id, Success).value, ended := s.ended[i := Succeed])
    else
      match MarkNode(s.run, id, Failed)
      case None => s.(phase := Crashed)
      case Some(run) => s.(run := run, ended := s.ended[i := if verdict.Succeed? then Fail(true, false) else verdict])
  }

  // ---------------------------------------------------------------- finishing

  /** The group items of one key, created where they are missing. */
  function EnsureGroupKey(g: Graph, run: Run, itemKey: string): Run {
    run.(groups := SyncGroups(g, run.groups), groupItems := AddGroupItems(g, g.groups, itemKey, KeepGroupItems(g, run.groupItems)))
  }

  function PromoteGroup(g: Graph, run: Run, groupId: Id, itemKey: string): Run {
    var ready := EnsureGroupKey(g, run, itemKey);
    var k := GroupItemIndex(ready.groupItems, groupId, itemKey);
    if k == |ready.groupItems| || !CanPromoteGroup(ready.groupItems[k]) then ready
    else ready.(groupItems := ready.groupItems[k := ready.groupItems[k].(status := Queued)])
  }

  function PromoteItem(run: Run, nodeId: Id, itemKey: string): Run {
    var k := ItemIndex(run.items, nodeId, itemKey);
    if k == |run.items| || !CanPromote(run.items[k]) then run
    else run.(items := run.items[k := run.items[k].(status := Queued)])
  }

  /** A finished item queues what is downstream of it at once, whatever else that depends on. */
  function Promote(g: Graph, run: Run, itemKey: string, outgoing: seq<Link>): Run
    decreases |outgoing|
  {
    if outgoing == [] then run
    else
      var e := outgoing[0];
      var next :=
        if !Unlabelled(e) || Cross(g, e.(when := None)) then run
        else if IsGroup(g, e.to) then PromoteGroup(g, run, e.to, itemKey)
        else PromoteItem(run, e.to, itemKey);
      Promote(g, next, itemKey, outgoing[1..])
  }

  function Enveloped(verdict: Verdict): bool { verdict.Succeed? || (verdict.Fail? && verdict.hasEnvelope) }

  function ResultOf(verdict: Verdict): TaskResult {
    match verdict
    case Succeed => TaskOk
    case Fail(halts, _) => TaskFailed(halts)
    case NoSession => TaskFailed(true)
  }

  /** Status change and promotion happen in one step; a raised transition crashes the drain. */
  function Finish(cfg: Config, s: State, i: nat): State
    requires i in s.ended && i < |s.run.items|
  {
    var x := s.run.items[i];
    var verdict := s.ended[i];
    var status := if verdict.Succeed? then Success else Failed;
    if TransitionStatus(x.status, status, None).None? then s.(phase := Crashed)
    else
      var run := s.run.(items := s.run.items[i := x.(status := status, route := if Enveloped(verdict) then None else x.route)]);
      var after := if Enveloped(verdict) then Promote(cfg.g, run, x.itemKey, Outgoing(cfg.g.definition.edges, x.nodeId)) else run;
      s.(run := after, executing := s.executing - {i}, begun := s.begun - {i}, ended := s.ended - {i},
         settled := s.settled[i := ResultOf(verdict)])
  }

  // ---------------------------------------------------------------- steps

  /**
   * `Begin`, `End` and `Done` are the three stretches of a running item: its node is set running, its
   * node takes the result, its item takes it.  `Resume` is the loop going on after the race: `seen` is the
   * one whose result it looks at, and `gone` are all that have settled meanwhile and left the active set.
   * `AllDone` ends a manual tick.  What is still under way when a drain ends runs on.
   */
  datatype Input =
    | Begin(i: nat)
    | End(i: nat)
    | Done(i: nat)
    | Resume(seen: nat, gone: set<nat>, now: int, aborted: bool)
    | AllDone

  predicate Allowed(cfg: Config, s: State, input: Input) {
    match input
    case Begin(i) =>
      !s.phase.Crashed? && i in s.executing && i < |s.run.items|
      && i !in s.begun && i !in s.ended && VerdictOf(cfg, s.run.items[i].nodeId) != NoSession
    case End(i) =>
      !s.phase.Crashed? && i in s.executing && i < |s.run.items|
      && i !in s.ended && (i in s.begun || VerdictOf(cfg, s.run.items[i].nodeId) == NoSession)
    case Done(i) => !s.phase.Crashed? && i in s.executing && i < |s.run.items| && i in s.ended
    case Resume(seen, gone, _, _) => s.phase.Racing? && seen in gone && gone <= s.settled.Keys
    case AllDone => s.phase.WaitingForAll? && s.executing == {}
  }

  function Collect(s: State, seen: nat, gone: set<nat>, aborted: bool): State
    requires seen in gone && gone <= s.settled.Keys
  {
    var halted := s.settled[seen] == TaskFailed(true);
    s.(settled := s.settled - gone, hardFailed := s.hardFailed || halted, stop := s.stop || aborted || halted)
  }

  function Step(cfg: Config, s: State, input: Input): State
    requires Allowed(cfg, s, input)
  {
    match input
    case Begin(i) => BeginNode(s, i)
    case End(i) => EndNode(cfg, s, i)
    case Done(i) => Finish(cfg, s, i)
    case Resume(seen, gone, now, aborted) =>
      var s1 := Collect(s, seen, gone, aborted);
      if cfg.manualTick && s1.stop then s1.(phase := WaitingForAll) else Body(cfg, LookAt(cfg, now), aborted, s1)
    case AllDone => Leave(s.(settled := map[]), TickDone)
  }

  ghost predicate Next(cfg: Config, a: State, b: State) {
    exists input :: Allowed(cfg, a, input) && b == Step(cfg, a, input)
  }

  /** No groups and no routing nodes: the workflows whose drains these steps describe. */
  predicate NodesOnly(g: Graph) {
    g.groups == [] && forall n :: n in g.definition.nodes ==> n.routeAllowed.None? || n.routeAllowed.value == []
  }

  /** A drain of `run`: the states after its synchronous start and after every step. */
  ghost predicate IsDrain(cfg: Config, run: Run, states: seq<State>) {
    && NodesOnly(cfg.g)
    && Linked(states, (a: State, b: State) => Next(cfg, a, b))
    && exists now, aborted :: states[0] == Start(cfg, now, aborted, run)
  }
}
