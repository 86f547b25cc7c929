/** Which entities a retry or rejection affects, and the resets applied to them. */
module RunState {
  import opened Common
  import opened Digraph
  import opened Workflow
  import opened WorkflowGraph
  import opened StateMachine
  import opened RunModel
  import opened Closure

  // ---------------------------------------------------------------- closures

  function Tos(edges: seq<Link>): (r: seq<Id>)
    ensures forall y :: y in r <==> exists e :: e in edges && e.to == y
  {
    if edges == [] then [] else [edges[0].to] + Tos(edges[1..])
  }

  function Froms(edges: seq<Link>): (r: seq<Id>)
    ensures forall y :: y in r <==> exists e :: e in edges && e.from == y
  {
    if edges == [] then [] else [edges[0].from] + Froms(edges[1..])
  }

  /** A group leads to its members, a member to its owner group, and both along edges that do not cross branches. */
  function Downstream(g: Graph, id: Id): seq<Id> {
    (match GroupById(g, id)
     case Some(group) => group.members
     case None => (match OwnerGroup(g, id) case Some(owner) => [owner.id] case None => []))
    + Tos(Filter(Outgoing(g.definition.edges, id), (e: Link) => !Cross(g, e)))
  }

  function Forward(g: Graph, id: Id): seq<Id> { Tos(Outgoing(g.definition.edges, id)) }

  function Backward(g: Graph, id: Id): seq<Id> { Froms(Incoming(g.definition.edges, id)) }

  /** The empty text is never visited. */
  predicate Live(id: Id) { id != "" }

  ghost predicate Affected(g: Graph, root: Id, id: Id) {
    Reached((x: Id) => Downstream(g, x), (x: Id) => Live(x), [root], id)
  }

  ghost predicate Reachable(g: Graph, starts: seq<Id>, id: Id) {
    Reached((x: Id) => Forward(g, x), (x: Id) => Live(x), starts, id)
  }

  ghost predicate Ancestor(g: Graph, starts: seq<Id>, id: Id) {
    Reached((x: Id) => Backward(g, x), (x: Id) => Live(x), starts, id)
  }

  ghost function Universe(g: Graph, starts: seq<Id>): set<Id> {
    ToSet(starts)
    + (set e | e in g.definition.edges :: e.to) + (set e | e in g.definition.edges :: e.from)
    + (set group, m | group in g.groups && m in group.members :: m) + (set group | group in g.groups :: group.id)
  }

  method Split(g: Graph, seen: set<Id>) returns (nodeIds: set<Id>, groupIds: set<Id>)
    ensures nodeIds == set id | id in seen && !IsGroup(g, id)
    ensures groupIds == set id | id in seen && IsGroup(g, id)
  {
    nodeIds := set id | id in seen && !IsGroup(g, id);
    groupIds := set id | id in seen && IsGroup(g, id);
  }

  method CollectDownstreamSubgraph(g: Graph, root: Id) returns (nodeIds: set<Id>, groupIds: set<Id>)
    ensures forall id :: id in nodeIds <==> Affected(g, root, id) && !IsGroup(g, id)
    ensures forall id :: id in groupIds <==> Affected(g, root, id) && IsGroup(g, id)
  {
    var seen := Explore((x: Id) => Downstream(g, x), (x: Id) => Live(x), [root], Universe(g, [root]));
    nodeIds, groupIds := Split(g, seen);
  }

  method CollectReachableEntities(g: Graph, starts: seq<Id>) returns (nodeIds: set<Id>, groupIds: set<Id>)
    ensures forall id :: id in nodeIds <==> Reachable(g, starts, id) && !IsGroup(g, id)
    ensures forall id :: id in groupIds <==> Reachable(g, starts, id) && IsGroup(g, id)
  {
    var seen := Explore((x: Id) => Forward(g, x), (x: Id) => Live(x), starts, Universe(g, starts));
    nodeIds, groupIds := Split(g, seen);
  }

  method CollectAncestorEntities(g: Graph, starts: seq<Id>) returns (nodeIds: set<Id>, groupIds: set<Id>)
    ensures forall id :: id in nodeIds <==> Ancestor(g, starts, id) && !IsGroup(g, id)
    ensures forall id :: id in groupIds <==> Ancestor(g, starts, id) && IsGroup(g, id)
  {
    var seen := Explore((x: Id) => Backward(g, x), (x: Id) => Live(x), starts, Universe(g, starts));
    nodeIds, groupIds := Split(g, seen);
  }

  /** Reachable and ancestor sets are converse relations. */
  lemma ReachableIsConverseOfAncestor(g: Graph, x: Id, y: Id)
    ensures Reachable(g, [x], y) <==> Ancestor(g, [y], x)
  {
    forall a, b ensures b in Forward(g, a) <==> a in Backward(g, b) {
      if b in Forward(g, a) {
        var e :| e in Outgoing(g.definition.edges, a) && e.to == b;
        assert e in Incoming(g.definition.edges, b);
      }
      if a in Backward(g, b) {
        var e :| e in Incoming(g.definition.edges, b) && e.from == a;
        assert e in Outgoing(g.definition.edges, a);
      }
    }
    Converse((u: Id) => Forward(g, u), (u: Id) => Backward(g, u), (u: Id) => Live(u), x, y);
  }

  /** The affected set holds the root and is closed; no smaller set is. */
  lemma AffectedIsLeast(g: Graph, root: Id, seen: set<Id>, other: set<Id>)
    requires Live(root)
    requires forall id :: id in seen <==> Affected(g, root, id)
    ensures root in seen && forall x, y :: x in seen && y in Downstream(g, x) && y != "" ==> y in seen
    ensures root in other && (forall x, y :: x in other && y in Downstream(g, x) && y != "" ==> y in other) ==> seen <= other
  {
    var next, live := (x: Id) => Downstream(g, x), (x: Id) => Live(x);
    ReachedIsLeast(next, live, [root], seen, other);
    forall x, y | x in seen && y in Downstream(g, x) && y != "" ensures y in seen {
      assert Follows(next, x, y);
    }
  }
}
