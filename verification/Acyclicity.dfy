/** Cycles of an edge relation, and the queue loop that detects them by counting indegrees. */
module Acyclicity {
  import opened Common
  import opened Digraph

  ghost predicate IsCycle<V(!new)>(edges: seq<Edge<V>>, p: seq<V>) {
    IsPath(edges, p) && |p| >= 2 && p[0] == p[|p| - 1]
  }

  ghost predicate Acyclic<V(!new)>(edges: seq<Edge<V>>) {
    !exists p :: IsCycle(edges, p)
  }

  ghost predicate Endpoints<V(!new)>(entities: seq<V>, edges: seq<Edge<V>>) {
    forall e :: e in edges ==> e.from in entities && e.to in entities
  }

  /** Every edge goes from an earlier to a later entity of `order`. */
  ghost predicate Topological<V(!new)>(edges: seq<Edge<V>>, order: seq<V>) {
    && Distinct(order)
    && forall e, j :: e in edges && 0 <= j < |order| && order[j] == e.to ==> e.from in order[..j]
  }

  // ---------------------------------------------------------------- an order leaves no cycle

  lemma {:induction false} PathAscends<V(!new)>(edges: seq<Edge<V>>, order: seq<V>, p: seq<V>, j: nat)
    requires Topological(edges, order) && IsPath(edges, p)
    requires j < |order| && order[j] == p[|p| - 1]
    ensures |p| >= 2 ==> p[0] in order[..j]
    decreases |p|
  {
    if |p| < 2 {
    } else {
      var k := |p| - 2;
      assert Joined(edges, p[k], p[k + 1]);
      var i :| 0 <= i < j && order[i] == p[k];
      var front := p[..|p| - 1];
      forall n | 0 <= n < |front| - 1 ensures Joined(edges, front[n], front[n + 1]) {
        assert Joined(edges, p[n], p[n + 1]);
      }
      PathAscends(edges, order, front, i);
    }
  }

  lemma OrderedIsAcyclic<V(!new)>(edges: seq<Edge<V>>, entities: seq<V>, order: seq<V>)
    requires Endpoints(entities, edges) && Topological(edges, order)
    requires forall id :: id in entities ==> id in order
    ensures Acyclic(edges)
  {
    forall p ensures !IsCycle(edges, p) {
      if IsCycle(edges, p) {
        assert Joined(edges, p[|p| - 2], p[|p| - 2 + 1]);
        var j :| 0 <= j < |order| && order[j] == p[|p| - 1];
        PathAscends(edges, order, p, j);
        assert false;
      }
    }
  }

  // ---------------------------------------------------------------- no order without a source

  ghost predicate HasPredecessor<V(!new)>(edges: seq<Edge<V>>, rest: set<V>, v: V) {
    exists u :: u in rest && Joined(edges, u, v)
  }

  /** Walking backwards inside a set where everything has a predecessor. */
  lemma {:induction false} BackwardWalk<V(!new)>(edges: seq<Edge<V>>, rest: set<V>, n: nat) returns (p: seq<V>)
    requires rest != {} && forall v :: v in rest ==> HasPredecessor(edges, rest, v)
    ensures IsPath(edges, p) && |p| == n + 1 && forall i :: 0 <= i < |p| ==> p[i] in rest
  {
    if n == 0 {
      var v :| v in rest;
      p := [v];
    } else {
      var q := BackwardWalk(edges, rest, n - 1);
      assert q[0] in rest && HasPredecessor(edges, rest, q[0]);
      p := StepBack(edges, rest, q);
    }
  }

  lemma StepBack<V(!new)>(edges: seq<Edge<V>>, rest: set<V>, q: seq<V>) returns (p: seq<V>)
    requires IsPath(edges, q) && (forall i :: 0 <= i < |q| ==> q[i] in rest) && HasPredecessor(edges, rest, q[0])
    ensures IsPath(edges, p) && |p| == |q| + 1 && forall i :: 0 <= i < |p| ==> p[i] in rest
  {
    var u :| u in rest && Joined(edges, u, q[0]);
    p := [u] + q;
    forall i | 0 <= i < |p| - 1 ensures Joined(edges, p[i], p[i + 1]) {
      if i > 0 { assert Joined(edges, q[i - 1], q[i - 1 + 1]); }
    }
  }

  lemma Segment<V(!new)>(edges: seq<Edge<V>>, p: seq<V>, i: nat, j: nat)
    requires IsPath(edges, p) && i < j < |p| && p[i] == p[j]
    ensures IsCycle(edges, p[i..j + 1])
  {
    var c := p[i..j + 1];
    forall k | 0 <= k < |c| - 1 ensures Joined(edges, c[k], c[k + 1]) {
      assert Joined(edges, p[i + k], p[i + k + 1]);
    }
  }

  lemma CycleWithin<V(!new)>(edges: seq<Edge<V>>, rest: set<V>)
    requires rest != {} && forall v :: v in rest ==> HasPredecessor(edges, rest, v)
    ensures !Acyclic(edges)
  {
    var p := BackwardWalk(edges, rest, |rest|);
    var i, j := Repetition(rest, p);
    Segment(edges, p, i, j);
  }

  lemma Repetition<V(!new)>(rest: set<V>, p: seq<V>) returns (i: nat, j: nat)
    requires |p| > |rest| && forall k :: 0 <= k < |p| ==> p[k] in rest
    ensures i < j < |p| && p[i] == p[j]
  {
    SubsetSize(ToSet(p), rest);
    SetSize(p);
    i, j :| 0 <= i < j < |p| && p[i] == p[j];
  }

  /** Without a cycle the entities of `rest` can be listed so that edges among them go forward. */
  lemma {:induction false} ListInOrder<V(!new)>(edges: seq<Edge<V>>, rest: set<V>) returns (order: seq<V>)
    requires Acyclic(edges)
    ensures Distinct(order) && forall v :: v in order <==> v in rest
    ensures forall e, j :: e in edges && e.from in rest && 0 <= j < |order| && order[j] == e.to ==> e.from in order[..j]
    decreases rest
  {
    if rest == {} {
      order := [];
    } else {
      if forall v :: v in rest ==> HasPredecessor(edges, rest, v) {
        CycleWithin(edges, rest);
        assert false;
      }
      var v :| v in rest && !HasPredecessor(edges, rest, v);
      var tail := ListInOrder(edges, rest - {v});
      order := [v] + tail;
      forall e, j | e in edges && e.from in rest && 0 <= j < |order| && order[j] == e.to
        ensures e.from in order[..j]
      {
        assert Joined(edges, e.from, e.to);
        assert order[j] == tail[j - 1];
        if e.from == v {
          assert order[..j][0] == v;
        } else {
          assert e.from in tail[..j - 1];
          assert order[..j] == [v] + tail[..j - 1];
        }
      }
    }
  }

  // ---------------------------------------------------------------- counting open dependencies

  /** The number of edges into `v` whose source is not in `done`. */
  ghost function Pending<V(!new)>(edges: seq<Edge<V>>, done: set<V>, v: V): nat {
    if edges == [] then 0
    else (if edges[0].to == v && edges[0].from !in done then 1 else 0) + Pending(edges[1..], done, v)
  }

  /** The targets of the edges leaving `u`, with repetitions, in edge order. */
  function Targets<V(==, !new)>(edges: seq<Edge<V>>, u: V): seq<V> {
    if edges == [] then []
    else (if edges[0].from == u then [edges[0].to] else []) + Targets(edges[1..], u)
  }

  lemma {:induction false} PendingZero<V(!new)>(edges: seq<Edge<V>>, done: set<V>, v: V)
    ensures Pending(edges, done, v) == 0 <==> forall e :: e in edges && e.to == v ==> e.from in done
  {
    if edges == [] {
    } else {
      PendingZero(edges[1..], done, v);
      assert edges == [edges[0]] + edges[1..];
    }
  }

  lemma {:induction false} PendingAfter<V(!new)>(edges: seq<Edge<V>>, done: set<V>, u: V, v: V)
    requires u !in done
    ensures Pending(edges, done + {u}, v) == Pending(edges, done, v) - multiset(Targets(edges, u))[v]
  {
    if edges == [] {
    } else {
      PendingAfter(edges[1..], done, u, v);
    }
  }

  lemma {:induction false} PendingSnoc<V(!new)>(edges: seq<Edge<V>>, e: Edge<V>, v: V)
    ensures Pending(edges + [e], {}, v) == Pending(edges, {}, v) + (if e.to == v then 1 else 0)
  {
    if edges == [] {
      assert edges + [e] == [e];
    } else {
      assert (edges + [e])[1..] == edges[1..] + [e];
      PendingSnoc(edges[1..], e, v);
    }
  }

  lemma {:induction false} TargetsSnoc<V(!new)>(edges: seq<Edge<V>>, e: Edge<V>, u: V)
    ensures Targets(edges + [e], u) == Targets(edges, u) + (if e.from == u then [e.to] else [])
  {
    if edges == [] {
      assert edges + [e] == [e];
    } else {
      assert (edges + [e])[1..] == edges[1..] + [e];
      TargetsSnoc(edges[1..], e, u);
    }
  }

  lemma {:induction false} TargetsKnown<V(!new)>(edges: seq<Edge<V>>, u: V)
    ensures forall v :: v in Targets(edges, u) ==> Joined(edges, u, v)
  {
    if edges == [] {
    } else {
      TargetsKnown(edges[1..], u);
      assert edges == [edges[0]] + edges[1..];
      forall v | v in Targets(edges, u) ensures Joined(edges, u, v) {
        if v in Targets(edges[1..], u) {
          assert Joined(edges[1..], u, v);
        } else {
          assert edges[0] in edges;
        }
      }
    }
  }

  ghost predicate Degrees<V(!new)>(entities: seq<V>, edges: seq<Edge<V>>, indegree: map<V, int>, outgoing: map<V, seq<V>>) {
    && indegree.Keys == ToSet(entities) == outgoing.Keys
    && forall v :: v in entities ==> indegree[v] == Pending(edges, {}, v) && outgoing[v] == Targets(edges, v)
  }

  lemma CountOne<V(!new)>(entities: seq<V>, edges: seq<Edge<V>>, e: Edge<V>, indegree: map<V, int>, outgoing: map<V, seq<V>>)
    requires Degrees(entities, edges, indegree, outgoing) && e.from in entities && e.to in entities
    ensures Degrees(entities, edges + [e], indegree[e.to := indegree[e.to] + 1], outgoing[e.from := outgoing[e.from] + [e.to]])
  {
    forall v | v in entities
      ensures Pending(edges + [e], {}, v) == Pending(edges, {}, v) + (if e.to == v then 1 else 0)
      ensures Targets(edges + [e], v) == Targets(edges, v) + (if e.from == v then [e.to] else [])
    {
      PendingSnoc(edges, e, v);
      TargetsSnoc(edges, e, v);
    }
  }

  method CountDegrees<V(==, !new)>(entities: seq<V>, edges: seq<Edge<V>>)
    returns (indegree: map<V, int>, outgoing: map<V, seq<V>>)
    requires Endpoints(entities, edges)
    ensures indegree.Keys == ToSet(entities) == outgoing.Keys
    ensures forall v :: v in entities ==> indegree[v] == Pending(edges, {}, v) && outgoing[v] == Targets(edges, v)
  {
    indegree := map v | v in entities :: 0;
    outgoing := map v | v in entities :: [];
    for i := 0 to |edges|
      invariant Degrees(entities, edges[..i], indegree, outgoing)
    {
      var e := edges[i];
      assert edges[..i + 1] == edges[..i] + [e];
      CountOne(entities, edges[..i], e, indegree, outgoing);
      outgoing := outgoing[e.from := outgoing[e.from] + [e.to]];
      indegree := indegree[e.to := indegree[e.to] + 1];
    }
    assert edges[..|edges|] == edges;
  }

  /**
   * The state of the release loop: `done` has left the queue, and the entities without open
   * dependencies are exactly those in `done` or in the queue.
   */
  ghost predicate Releasing<V(!new)>(entities: set<V>, edges: seq<Edge<V>>, done: set<V>, queue: seq<V>, indegree: map<V, int>) {
    && indegree.Keys == entities
    && Distinct(queue)
    && (forall v :: v in queue ==> v in entities && v !in done)
    && (forall v :: v in entities ==> (v in done || v in queue <==> indegree[v] == 0))
  }

  ghost predicate Counts<V(!new)>(edges: seq<Edge<V>>, done: set<V>, indegree: map<V, int>, extra: multiset<V>) {
    forall v :: v in indegree ==> indegree[v] == Pending(edges, done, v) + extra[v]
  }

  /** The loop releases `entities` one by one; it reaches all of them exactly when there is no cycle. */
  method CountReleased<V(==, !new)>(entities: seq<V>, edges: seq<Edge<V>>) returns (visited: nat)
    requires Distinct(entities) && Endpoints(entities, edges)
    ensures visited <= |entities|
    ensures visited == |entities| <==> Acyclic(edges)
  {
    var indegree, outgoing := CountDegrees(entities, edges);
    var queue := Sources(entities, edges, indegree);
    visited := 0;
    ghost var all := ToSet(entities);
    ghost var done: seq<V> := [];
    assert ToSet(done) == {};
    while queue != []
      invariant visited == |done| && ToSet(done) <= all
      invariant Releasing(all, edges, ToSet(done), queue, indegree)
      invariant Counts(edges, ToSet(done), indegree, multiset{})
      invariant Topological(edges, done)
      decreases |all| - |done|
    {
      var id := queue[0];
      TakeHead(all, edges, ToSet(done), queue, indegree);
      TakeNext(all, edges, done, queue, indegree);
      visited := visited + 1;
      indegree, queue := Release(all, outgoing[id], edges, ToSet(done), indegree, queue);
      done := done + [id];
    }
    AllOrCycle(entities, edges, done, indegree);
  }

  /** The entities without incoming edges, in order. */
  method Sources<V(==, !new)>(entities: seq<V>, edges: seq<Edge<V>>, indegree: map<V, int>) returns (queue: seq<V>)
    requires Distinct(entities) && indegree.Keys == ToSet(entities)
    requires Counts(edges, {}, indegree, multiset{})
    ensures Releasing(ToSet(entities), edges, {}, queue, indegree)
  {
    queue := [];
    for i := 0 to |entities|
      invariant Distinct(queue)
      invariant forall v :: v in queue <==> v in entities[..i] && indegree[v] == 0
    {
      assert entities[..i + 1] == entities[..i] + [entities[i]];
      if indegree[entities[i]] == 0 { queue := queue + [entities[i]]; }
    }
    assert entities[..|entities|] == entities;
  }

  lemma TakeNext<V(!new)>(entities: set<V>, edges: seq<Edge<V>>, done: seq<V>, queue: seq<V>, indegree: map<V, int>)
    requires queue != [] && ToSet(done) <= entities && Topological(edges, done)
    requires Releasing(entities, edges, ToSet(done), queue, indegree) && Counts(edges, ToSet(done), indegree, multiset{})
    ensures Topological(edges, done + [queue[0]])
    ensures ToSet(done + [queue[0]]) == ToSet(done) + {queue[0]}
    ensures |done| < |entities|
  {
    var id := queue[0];
    assert id in queue;
    PendingZero(edges, ToSet(done), id);
    TopologicalSnoc(edges, done, id);
    SetSize(done + [id]);
    SubsetSize(ToSet(done + [id]), entities);
  }

  lemma AllOrCycle<V(!new)>(entities: seq<V>, edges: seq<Edge<V>>, done: seq<V>, indegree: map<V, int>)
    requires Distinct(entities) && Endpoints(entities, edges) && ToSet(done) <= ToSet(entities)
    requires Releasing(ToSet(entities), edges, ToSet(done), [], indegree)
    requires Counts(edges, ToSet(done), indegree, multiset{}) && Topological(edges, done)
    ensures |done| <= |entities|
    ensures |done| == |entities| <==> Acyclic(edges)
  {
    SetSize(entities);
    SetSize(done);
    SubsetSize(ToSet(done), ToSet(entities));
    if |done| == |entities| {
      forall v | v in entities ensures v in done { assert v in ToSet(entities); }
      OrderedIsAcyclic(edges, entities, done);
    } else {
      NoneReleased(ToSet(entities), edges, ToSet(done));
    }
  }

  lemma TopologicalSnoc<V(!new)>(edges: seq<Edge<V>>, done: seq<V>, id: V)
    requires Topological(edges, done) && id !in done
    requires forall e :: e in edges && e.to == id ==> e.from in done
    ensures Topological(edges, done + [id])
  {
    var next := done + [id];
    forall e, j | e in edges && 0 <= j < |next| && next[j] == e.to ensures e.from in next[..j] {
      if j < |done| {
        assert next[..j] == done[..j];
      } else {
        assert next[..j] == done;
      }
    }
  }

  lemma NoneReleased<V(!new)>(entities: set<V>, edges: seq<Edge<V>>, done: set<V>)
    requires forall e :: e in edges ==> e.from in entities
    requires done <= entities && |done| < |entities|
    requires forall v :: v in entities ==> (v in done <==> Pending(edges, done, v) == 0)
    ensures !Acyclic(edges)
  {
    var rest := entities - done;
    if forall x :: x in entities ==> x in done {
      SubsetSize(entities, done);
      assert false;
    }
    var w :| w in entities && w !in done;
    assert w in rest;
    forall v | v in rest ensures HasPredecessor(edges, rest, v) {
      PendingZero(edges, done, v);
      var e :| e in edges && e.to == v && e.from !in done;
      assert e.from in rest && Joined(edges, e.from, v);
    }
    CycleWithin(edges, rest);
  }

  lemma TakeHead<V(!new)>(entities: set<V>, edges: seq<Edge<V>>, done: set<V>, queue: seq<V>, indegree: map<V, int>)
    requires queue != []
    requires Releasing(entities, edges, done, queue, indegree) && Counts(edges, done, indegree, multiset{})
    ensures queue[0] in entities && queue[0] !in done
    ensures Releasing(entities, edges, done + {queue[0]}, queue[1..], indegree)
    ensures Counts(edges, done + {queue[0]}, indegree, multiset(Targets(edges, queue[0])))
  {
    var id := queue[0];
    assert id in queue && queue == [id] + queue[1..];
    forall v | v in indegree
      ensures indegree[v] == Pending(edges, done + {id}, v) + multiset(Targets(edges, id))[v]
    {
      PendingAfter(edges, done, id, v);
    }
  }

  /** One target of a released entity loses one open dependency. */
  lemma LoseOne<V(!new)>(entities: set<V>, edges: seq<Edge<V>>, done: set<V>, queue: seq<V>, indegree: map<V, int>,
                         extra: multiset<V>, next: V)
    requires Releasing(entities, edges, done, queue, indegree) && next in entities
    requires Counts(edges, done, indegree, extra + multiset{next})
    ensures var less := indegree[next := indegree[next] - 1];
            && Releasing(entities, edges, done, if less[next] == 0 then queue + [next] else queue, less)
            && Counts(edges, done, less, extra)
  {
    assert indegree[next] >= 1;
  }

  /** One outer step: the head of the queue is taken off and its targets lose one open dependency each. */
  method Release<V(==, !new)>(ghost entities: set<V>, targets: seq<V>, ghost edges: seq<Edge<V>>, ghost done: set<V>,
                              indegree0: map<V, int>, queue0: seq<V>)
    returns (indegree: map<V, int>, queue: seq<V>)
    requires queue0 != [] && targets == Targets(edges, queue0[0])
    requires forall e :: e in edges ==> e.to in entities
    requires Releasing(entities, edges, done, queue0, indegree0)
    requires Counts(edges, done, indegree0, multiset{})
    ensures Releasing(entities, edges, done + {queue0[0]}, queue, indegree)
    ensures Counts(edges, done + {queue0[0]}, indegree, multiset{})
  {
    ghost var taken := done + {queue0[0]};
    TakeHead(entities, edges, done, queue0, indegree0);
    TargetsKnown(edges, queue0[0]);
    indegree, queue := indegree0, queue0[1..];
    assert targets[0..] == targets;
    for j := 0 to |targets|
      invariant Releasing(entities, edges, taken, queue, indegree)
      invariant Counts(edges, taken, indegree, multiset(targets[j..]))
    {
      var next := targets[j];
      SuffixStep(targets, j);
      assert Joined(edges, queue0[0], next);
      LoseOne(entities, edges, taken, queue, indegree, multiset(targets[j + 1..]), next);
      indegree := indegree[next := indegree[next] - 1];
      if indegree[next] == 0 {
        queue := queue + [next];
      }
    }
  }
}
