/** Labelled edges over any entity type, and the paths they form. */
module Digraph {
  import opened Common

  /** `when` is None on an unconditional (dependency) edge and the route value on a route edge. */
  datatype Edge<V> = Edge(from: V, to: V, when: Option<string>)

  /** The edges into `target`, in edge order. */
  function Incoming<V(==, !new)>(edges: seq<Edge<V>>, target: V): (r: seq<Edge<V>>)
    ensures forall e :: e in r <==> e in edges && e.to == target
  {
    if edges == [] then []
    else if edges[0].to == target then [edges[0]] + Incoming(edges[1..], target)
    else Incoming(edges[1..], target)
  }

  /** The edges out of `source`, in edge order. */
  function Outgoing<V(==, !new)>(edges: seq<Edge<V>>, source: V): (r: seq<Edge<V>>)
    ensures forall e :: e in r <==> e in edges && e.from == source
  {
    if edges == [] then []
    else if edges[0].from == source then [edges[0]] + Outgoing(edges[1..], source)
    else Outgoing(edges[1..], source)
  }

  lemma {:induction false} IndexSnoc<V(!new)>(edges: seq<Edge<V>>, e: Edge<V>, id: V)
    ensures Incoming(edges + [e], id) == Incoming(edges, id) + (if e.to == id then [e] else [])
    ensures Outgoing(edges + [e], id) == Outgoing(edges, id) + (if e.from == id then [e] else [])
  {
    if edges == [] {
      assert edges + [e] == [e];
    } else {
      assert (edges + [e])[1..] == edges[1..] + [e];
      IndexSnoc(edges[1..], e, id);
    }
  }

  ghost predicate Joined<V(!new)>(edges: seq<Edge<V>>, x: V, y: V) {
    exists e :: e in edges && e.from == x && e.to == y
  }

  /** A nonempty sequence of entities, each joined to the next by one of `edges`. */
  ghost predicate IsPath<V(!new)>(edges: seq<Edge<V>>, p: seq<V>) {
    && p != []
    && forall i :: 0 <= i < |p| - 1 ==> Joined(edges, p[i], p[i + 1])
  }

  function Lookup<V, T>(index: map<V, seq<T>>, id: V): seq<T> {
    if id in index then index[id] else []
  }

  /** The two lookup tables, filled in one pass over the edges. */
  method IndexEdges<V(==, !new)>(edges: seq<Edge<V>>) returns (incoming: map<V, seq<Edge<V>>>, outgoing: map<V, seq<Edge<V>>>)
    ensures forall id :: Lookup(incoming, id) == Incoming(edges, id)
    ensures forall id :: Lookup(outgoing, id) == Outgoing(edges, id)
  {
    incoming, outgoing := map[], map[];
    for i := 0 to |edges|
      invariant forall id :: Lookup(incoming, id) == Incoming(edges[..i], id)
      invariant forall id :: Lookup(outgoing, id) == Outgoing(edges[..i], id)
    {
      var edge := edges[i];
      assert edges[..i + 1] == edges[..i] + [edge];
      forall id
        ensures Incoming(edges[..i + 1], id) == Incoming(edges[..i], id) + (if edge.to == id then [edge] else [])
        ensures Outgoing(edges[..i + 1], id) == Outgoing(edges[..i], id) + (if edge.from == id then [edge] else [])
      {
        IndexSnoc(edges[..i], edge, id);
      }
      ghost var incoming0, outgoing0 := incoming, outgoing;
      incoming := incoming[edge.to := Lookup(incoming, edge.to) + [edge]];
      outgoing := outgoing[edge.from := Lookup(outgoing, edge.from) + [edge]];
      forall id
        ensures Lookup(incoming, id) == Lookup(incoming0, id) + (if edge.to == id then [edge] else [])
        ensures Lookup(outgoing, id) == Lookup(outgoing0, id) + (if edge.from == id then [edge] else [])
      {
      }
    }
    assert edges[..|edges|] == edges;
  }
}
