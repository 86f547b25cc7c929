/** The indices built over a workflow definition, and the lookups made through them. */
module WorkflowGraph {
  import opened Common
  import opened Digraph
  import opened Workflow
  import opened BranchRules

  datatype Graph = Graph(definition: Definition, groups: seq<Group>, scopes: Scopes)

  function ExplicitScopes(nodes: seq<Node>): (r: map<Id, string>)
    ensures forall id :: id in r ==> id in NodeIds(nodes)
  {
    if nodes == [] then map[]
    else
      var rest := ExplicitScopes(nodes[1..]);
      assert forall id :: id in NodeIds(nodes[1..]) ==> id in NodeIds(nodes) by {
        assert forall i :: 0 <= i < |nodes| - 1 ==> NodeIds(nodes[1..])[i] == NodeIds(nodes)[i + 1];
      }
      assert NodeIds(nodes)[0] == nodes[0].id;
      (if nodes[0].branchScopeId.Some? then map[nodes[0].id := nodes[0].branchScopeId.value] else map[]) + rest
  }

  /** Merge nodes take edges from any branch, so their scope is erased. */
  function EraseMerges(nodes: seq<Node>, scopes: Scopes): Scopes {
    scopes + map node | node in nodes && IsMerge(node) :: node.id := None
  }

  /** Validation seeds the nodes alone. */
  function ValidationScopes(w: Definition): Scopes {
    EraseMerges(w.nodes, ComputeScopes(NodeIds(w.nodes), w.edges, ExplicitScopes(w.nodes)))
  }

  /** The graph seeds nodes and groups. */
  function GraphScopes(w: Definition): Scopes {
    EraseMerges(w.nodes, ComputeScopes(NodeIds(w.nodes) + GroupIds(w.groups), w.edges, ExplicitScopes(w.nodes)))
  }

  predicate NamesGroup(n: Node, seen: set<Id>) {
    n.parallelGroupId.Some? && n.parallelGroupId.value != "" && n.parallelGroupId.value !in seen
  }

  /** Groups that only nodes name, in order of first mention, when at least two nodes name them. */
  function InferredGroups(nodes: seq<Node>, seen: set<Id>): seq<Group> {
    var naming := Filter(nodes, (n: Node) => NamesGroup(n, seen));
    var ids := Dedup(seq(|naming|, i requires 0 <= i < |naming| =>
      assert naming[i] in naming; naming[i].parallelGroupId.value));
    var groups := seq(|ids|, i requires 0 <= i < |ids| =>
      Group(ids[i], NodeIds(Filter(naming, (n: Node) => n.parallelGroupId == Some(ids[i]))), "all"));
    Filter(groups, (g: Group) => |g.members| >= 2)
  }

  function Build(w: Definition): Graph {
    var explicit := Filter(w.groups, (g: Group) => |g.members| >= 2);
    var seen := set g | g in explicit :: g.id;
    Graph(w, explicit + InferredGroups(w.nodes, seen), GraphScopes(w))
  }

  /** The last node with an id: what a map filled in node order ends up holding. */
  function LastNode(nodes: seq<Node>, id: Id): (r: Option<Node>)
    ensures r.Some? ==> r.value in nodes && r.value.id == id
    ensures r.None? ==> forall n :: n in nodes ==> n.id != id
  {
    if nodes == [] then None
    else if nodes[|nodes| - 1].id == id then Some(nodes[|nodes| - 1])
    else LastNode(nodes[..|nodes| - 1], id)
  }

  function LastGroup(groups: seq<Group>, id: Id): (r: Option<Group>)
    ensures r.Some? ==> r.value in groups && r.value.id == id
    ensures r.None? ==> forall x :: x in groups ==> x.id != id
  {
    if groups == [] then None
    else if groups[|groups| - 1].id == id then Some(groups[|groups| - 1])
    else LastGroup(groups[..|groups| - 1], id)
  }

  function LastOwner(groups: seq<Group>, nodeId: Id): (r: Option<Group>)
    ensures r.Some? ==> r.value in groups && nodeId in r.value.members
    ensures r.None? ==> forall x :: x in groups ==> nodeId !in x.members
  {
    if groups == [] then None
    else if nodeId in groups[|groups| - 1].members then Some(groups[|groups| - 1])
    else LastOwner(groups[..|groups| - 1], nodeId)
  }

  function NodeById(g: Graph, id: Id): Option<Node> { LastNode(g.definition.nodes, id) }

  function GroupById(g: Graph, id: Id): Option<Group> { LastGroup(g.groups, id) }

  /** The group that owns a node as a member. */
  function OwnerGroup(g: Graph, nodeId: Id): Option<Group> { LastOwner(g.groups, nodeId) }

  predicate IsGroup(g: Graph, id: Id) {
    GroupById(g, id).Some?
  }

  /** Only a node found and marked disabled is disabled. */
  predicate Enabled(g: Graph, id: Id) {
    NodeById(g, id).Some? ==> NodeById(g, id).value.enabled
  }

  predicate IsRouteNode(g: Graph, id: Id) {
    NodeById(g, id).Some? && NodeById(g, id).value.routeAllowed.Some? && NodeById(g, id).value.routeAllowed.value != []
  }

  predicate Cross(g: Graph, edge: Link) {
    CrossBranch(edge, g.scopes)
  }

  // ---------------------------------------------------------------- two seedings, one answer

  /** Seeding the groups as well changes no scope, so graph and validation agree on every edge. */
  lemma SameCrossEdges(w: Definition, edge: Link)
    ensures Cross(Build(w), edge) <==> CrossBranch(edge, ValidationScopes(w))
  {
    UnscopedSeedsInvisible(NodeIds(w.nodes), GroupIds(w.groups), w.edges, ExplicitScopes(w.nodes));
    var a := ComputeScopes(NodeIds(w.nodes), w.edges, ExplicitScopes(w.nodes));
    var b := ComputeScopes(NodeIds(w.nodes) + GroupIds(w.groups), w.edges, ExplicitScopes(w.nodes));
    forall id ensures ScopeOf(ValidationScopes(w), id) == ScopeOf(GraphScopes(w), id) {
      assert ScopeOf(a, id) == ScopeOf(b, id);
    }
  }
}
