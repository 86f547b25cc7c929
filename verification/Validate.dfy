/** Validation of a workflow definition: the checks in their order, and what acceptance guarantees. */
module Validate {
  import opened Common
  import opened Digraph
  import opened Workflow
  import opened BranchRules
  import opened WorkflowGraph
  import opened Acyclicity

  datatype ErrorCode = InvalidDefinition | MixedEdgeKinds | CrossBranchEdge | JoinPolicyNotSupported

  const MAINLINE_ROUTE := "yes"
  const DEFAULT_BRANCH_ROUTE := "no"

  function EntityIds(w: Definition): (r: seq<Id>)
    ensures Distinct(r)
  {
    Dedup(NodeIds(w.nodes) + GroupIds(w.groups))
  }

  /** The text under which edges are compared; a missing condition and an empty one read the same. */
  function EdgeKey(e: Link): string {
    e.from + "|" + (if e.when.Some? then e.when.value else "") + "|" + e.to
  }

  predicate EdgesOk(entities: seq<Id>, edges: seq<Link>) {
    && (forall e :: e in edges ==> e.from in entities && e.to in entities && e.from != e.to)
    && (forall i, j :: 0 <= i < j < |edges| ==> EdgeKey(edges[i]) != EdgeKey(edges[j]))
  }

  function FirstNode(w: Definition, id: Id): Option<Node> {
    FindFirst(w.nodes, (n: Node) => n.id == id)
  }

  /** A source with both unconditional and route edges must be a routing node. */
  predicate MixedSource(w: Definition, id: Id) {
    && (exists e :: e in w.edges && e.from == id && e.when.None?)
    && (exists e :: e in w.edges && e.from == id && e.when.Some?)
    && !(FirstNode(w, id).Some? && FirstNode(w, id).value.routeAllowed.Some?)
  }

  predicate HasMixedSource(w: Definition) {
    exists e :: e in w.edges && MixedSource(w, e.from)
  }

  predicate HasCrossEdge(w: Definition, scopes: Scopes) {
    exists e :: e in w.edges && CrossBranch(e, scopes)
  }

  predicate GroupsOk(w: Definition) {
    && (forall i, j :: 0 <= i < j < |w.groups| ==> w.groups[i].id != w.groups[j].id)
    && (forall g :: g in w.groups ==> forall m :: m in g.members ==> m in NodeIds(w.nodes))
  }

  /** A node that names a parallel group is listed by that group. */
  predicate NodeGroupOk(w: Definition, n: Node) {
    n.parallelGroupId.Some? && n.parallelGroupId.value != "" ==>
      var group := FindLast(w.groups, (g: Group) => g.id == n.parallelGroupId.value);
      group.Some? && n.id in group.value.members
  }

  /** No unconditional edge enters a member from its group, a fellow member or an upstream of its group. */
  predicate MemberEdgeOk(w: Definition, g: Group, e: Link) {
    e.when.None? && e.to in g.members && e.to != g.id ==>
      && e.from != g.id
      && e.from !in g.members
      && !exists f :: f in w.edges && f.to == g.id && f.from == e.from
  }

  predicate BranchTarget(w: Definition, id: Id) {
    var node := FirstNode(w, id);
    var group := FindFirst(w.groups, (g: Group) => g.id == id);
    || (node.Some? && node.value.lane == BranchLane)
    || (group.Some?
        && (exists m :: m in group.value.members && FirstNode(w, m).Some?)
        && (forall m :: m in group.value.members && FirstNode(w, m).Some? ==> FirstNode(w, m).value.lane == BranchLane))
  }

  predicate RoutesOk(w: Definition, n: Node) {
    n.routeAllowed.Some? ==>
      var allowed := n.routeAllowed.value;
      var out := Outgoing(w.edges, n.id);
      && 2 <= |allowed| <= 5
      && MAINLINE_ROUTE in allowed && DEFAULT_BRANCH_ROUTE in allowed
      && |Filter(out, (e: Link) => e.when.None?)| <= 1
      && (forall e :: e in out && e.when.Some? ==>
            e.when.value != MAINLINE_ROUTE && e.when.value in allowed && BranchTarget(w, e.to))
      && (forall r :: r in allowed && r != MAINLINE_ROUTE ==> |Filter(out, (e: Link) => e.when == Some(r))| == 1)
  }

  predicate PolicyOk(n: Node) {
    n.dependencyPolicy in {None, Some("all"), Some("any")}
  }

  /** None accepts the workflow; otherwise the code of the first check that fails. */
  ghost function Verdict(w: Definition): Option<ErrorCode> {
    if w.nodes == [] then
      if w.edges == [] && w.groups == [] then None else Some(InvalidDefinition)
    else if !Distinct(NodeIds(w.nodes)) then Some(InvalidDefinition)
    else if !EdgesOk(EntityIds(w), w.edges) then Some(InvalidDefinition)
    else if HasMixedSource(w) then Some(MixedEdgeKinds)
    else if HasCrossEdge(w, ValidationScopes(w)) then Some(CrossBranchEdge)
    else if !GroupsOk(w) then Some(InvalidDefinition)
    else if exists n :: n in w.nodes && !NodeGroupOk(w, n) then Some(InvalidDefinition)
    else if exists g, e :: g in w.groups && e in w.edges && !MemberEdgeOk(w, g, e) then Some(InvalidDefinition)
    else if exists g :: g in w.groups && g.joinPolicy != "all" then Some(JoinPolicyNotSupported)
    else if exists n :: n in w.nodes && !(RoutesOk(w, n) && PolicyOk(n)) then Some(InvalidDefinition)
    else if !Acyclic(w.edges) then Some(InvalidDefinition)
    else None
  }

  ghost predicate Accepts(w: Definition) {
    Verdict(w).None?
  }

  // ---------------------------------------------------------------- the loops

  method CheckEdges(entities: seq<Id>, edges: seq<Link>) returns (ok: bool)
    ensures ok <==> EdgesOk(entities, edges)
  {
    var seen: set<string> := {};
    for i := 0 to |edges|
      invariant EdgesOk(entities, edges[..i])
      invariant forall key :: key in seen <==> exists k :: 0 <= k < i && EdgeKey(edges[k]) == key
    {
      var e := edges[i];
      if e.from !in entities || e.to !in entities { return false; }
      if e.from == e.to { return false; }
      if EdgeKey(e) in seen { return false; }
      seen := seen + {EdgeKey(e)};
    }
    assert edges[..|edges|] == edges;
    return true;
  }

  method DeriveValidationScopes(w: Definition) returns (scopes: Scopes)
    ensures scopes == ValidationScopes(w)
  {
    scopes := ComputeNodeScopes(NodeIds(w.nodes), w.edges, ExplicitScopes(w.nodes));
    scopes := EraseMerges(w.nodes, scopes);
  }

  method ValidateWorkflowGraph(w: Definition) returns (r: Option<ErrorCode>)
    ensures r == Verdict(w)
  {
    if w.nodes == [] {
      return if w.edges == [] && w.groups == [] then None else Some(InvalidDefinition);
    }
    SetSize(NodeIds(w.nodes));
    if |ToSet(NodeIds(w.nodes))| != |w.nodes| { return Some(InvalidDefinition); }
    var edgesOk := CheckEdges(EntityIds(w), w.edges);
    if !edgesOk { return Some(InvalidDefinition); }
    if HasMixedSource(w) { return Some(MixedEdgeKinds); }
    var scopes := DeriveValidationScopes(w);
    if HasCrossEdge(w, scopes) { return Some(CrossBranchEdge); }
    if !GroupsOk(w) { return Some(InvalidDefinition); }
    if exists n :: n in w.nodes && !NodeGroupOk(w, n) { return Some(InvalidDefinition); }
    if exists g, e :: g in w.groups && e in w.edges && !MemberEdgeOk(w, g, e) { return Some(InvalidDefinition); }
    if exists g :: g in w.groups && g.joinPolicy != "all" { return Some(JoinPolicyNotSupported); }
    if exists n :: n in w.nodes && !(RoutesOk(w, n) && PolicyOk(n)) { return Some(InvalidDefinition); }
    var visited := CountReleased(EntityIds(w), w.edges);
    if visited != |EntityIds(w)| { return Some(InvalidDefinition); }
    return None;
  }

  // ---------------------------------------------------------------- what acceptance guarantees

  lemma NoNodesNoEdges(w: Definition)
    requires Accepts(w)
    ensures w.nodes == [] ==> w.edges == [] && w.groups == []
    ensures w.nodes != [] ==> EdgesOk(EntityIds(w), w.edges) && Acyclic(w.edges) && !HasCrossEdge(w, ValidationScopes(w))
  {
  }

  /** The built graph of an accepted workflow has no cross-branch edge. */
  lemma AcceptedNeverCross(w: Definition, e: Link)
    requires Accepts(w) && e in w.edges
    ensures !Cross(Build(w), e)
  {
    NoNodesNoEdges(w);
    SameCrossEdges(w, e);
  }

  lemma OrderOfEntities(entities: set<Id>, edges: seq<Link>) returns (order: seq<Id>)
    requires Acyclic(edges) && forall e :: e in edges ==> e.from in entities && e.to in entities
    ensures Topological(edges, order) && ToSet(order) == entities
  {
    order := ListInOrder(edges, entities);
  }

  /** The entities of an accepted workflow can be listed with the source of every edge before its target. */
  lemma AcceptedHasOrder(w: Definition) returns (order: seq<Id>)
    requires Accepts(w)
    ensures Topological(w.edges, order) && ToSet(order) == ToSet(EntityIds(w))
  {
    NoNodesNoEdges(w);
    if w.nodes == [] {
      order := EntityIds(w);
    } else {
      order := OrderOfEntities(ToSet(EntityIds(w)), w.edges);
    }
  }
}
