/** Two workflows that show where merging templates departs from what one would expect. */
module TemplateCases {
  import opened Common
  import opened Digraph
  import opened Workflow
  import opened BranchRules
  import opened WorkflowGraph
  import opened Acyclicity
  import opened Validate
  import opened TemplateMapper
  import opened StraightWorkflows

  // ---------------------------------------------------------------- a merge that falls back

  function BranchNode(id: Id, scope: Option<string>): Node {
    Node(id, id, "task", true, true, MainLane, None, Executor("agent", "", None, None), "single", "single", None, None,
         RetryPolicy(1, 0), OutputSpec("json", 1), "", false, 0, scope)
  }

  function FallbackNodes(): seq<Node> {
    [BranchNode("a", Some("s")), BranchNode("x", None), BranchNode("z", Some("s")), BranchNode("m", None), BranchNode("k", None)]
  }

  /** From a scoped node through a group to x, which gets its scope that way, and on to another scoped node. */
  function Fallback(): Definition {
    Definition(Scheduler(true, true, 1, 100), [], None, FallbackNodes(),
               [Edge("a", "g", None), Edge("g", "x", None), Edge("x", "z", None)], [Group("g", ["m", "k"], "all")])
  }

  /** All that the argument needs to know of it. */
  ghost predicate FallsBack(w: Definition) {
    && w.nodes != [] && Distinct(NodeIds(w.nodes))
    && (forall id :: id in NodeIds(w.nodes) <==> id in {"a", "x", "z", "m", "k"})
    && (forall n :: n in w.nodes ==> n.parallelGroupId.None? && n.routeAllowed.None? && n.dependencyPolicy.None?)
    && w.edges == [Edge("a", "g", None), Edge("g", "x", None), Edge("x", "z", None)]
    && w.groups == [Group("g", ["m", "k"], "all")]
    && ExplicitScopes(w.nodes) == map["a" := "s", "z" := "s"]
  }

  lemma FallbackExplicit()
    ensures ExplicitScopes(FallbackNodes()) == map["a" := "s", "z" := "s"]
  {
    var nodes := FallbackNodes();
    assert nodes[1..][1..][1..][1..][1..] == [];
    assert ExplicitScopes(nodes[1..][1..][1..]) == map[];
    assert ExplicitScopes(nodes[1..][1..]) == map["z" := "s"];
    assert ExplicitScopes(nodes[1..]) == map["z" := "s"];
  }

  lemma FallbackFallsBack()
    ensures FallsBack(Fallback())
  {
    FallbackExplicit();
    hide ExplicitScopes;
    assert NodeIds(FallbackNodes()) == ["a", "x", "z", "m", "k"];
  }

  lemma FallbackAcyclic(edges: seq<Link>)
    requires edges == [Edge("a", "g", None), Edge("g", "x", None), Edge("x", "z", None)]
    ensures Acyclic(edges)
  {
    var order := ["a", "g", "x", "z"];
    assert order[..1] == ["a"] && order[..2] == ["a", "g"] && order[..3] == ["a", "g", "x"];
    assert Topological(edges, order);
    OrderedIsAcyclic(edges, order, order);
  }

  lemma FallbackEdges(w: Definition)
    requires FallsBack(w)
    ensures EdgesOk(EntityIds(w), w.edges)
  {
    var edges, entities := w.edges, EntityIds(w);
    assert GroupIds(w.groups) == ["g"];
    assert forall id :: id in {"a", "x", "z", "g"} ==> id in entities;
    hide EntityIds;
    assert EdgeKey(edges[0]) == "a||g" && EdgeKey(edges[1]) == "g||x" && EdgeKey(edges[2]) == "x||z";
  }

  lemma FallbackGroups(w: Definition)
    requires FallsBack(w)
    ensures GroupsOk(w)
  {
    hide ExplicitScopes;
  }

  lemma FallbackStraight(w: Definition)
    requires FallsBack(w)
    ensures Straight(w)
  {
    hide EdgesOk, EntityIds, Acyclic, GroupsOk, ExplicitScopes, Unadorned, Distinct;
    FallbackAcyclic(w.edges);
    FallbackEdges(w);
    FallbackGroups(w);
    FallbackUnadorned(w);
  }

  lemma FallbackUnadorned(w: Definition)
    requires FallsBack(w)
    ensures Unadorned(w)
  {
    hide ExplicitScopes, Distinct;
  }

  lemma FallbackAccepted(w: Definition)
    requires FallsBack(w)
    ensures Accepts(w)
  {
    hide Straight, FallsBack, Accepts, ValidationScopes;
    FallbackStraight(w);
    forall e | e in w.edges ensures !CrossBranch(e, ValidationScopes(w)) { FallbackEdgeStays(w, e); }
    StraightAccepted(w);
  }

  lemma FallbackEdgeStays(w: Definition, e: Link)
    requires FallsBack(w) && Straight(w) && e in w.edges
    ensures !CrossBranch(e, ValidationScopes(w))
  {
    hide Straight, ValidationScopes;
    OnlyScope(w, "s", e.from);
    OnlyScope(w, "s", e.to);
    FallbackScoped(w);
    assert e.from in {"a", "g", "x"};
    TargetIsScoped(w, e);
  }

  lemma FallbackScoped(w: Definition)
    requires FallsBack(w) && Straight(w)
    ensures forall id :: id in {"a", "g", "x"} ==> Scoped(ValidationScopes(w), id)
  {
    hide Straight, ValidationScopes, ExplicitScopes, Scoped;
    ExplicitIsScoped(w, "a");
    TargetIsScoped(w, w.edges[0]);
    TargetIsScoped(w, w.edges[1]);
  }

  lemma MergedRest(w: Definition)
    ensures var m := Merged(w, Extract(w)); m == w.(nodes := m.nodes, edges := m.edges, groups := m.groups)
  {
  }

  /** Without the edges of the group only the last edge is left. */
  ghost predicate OnlyLast(edges: seq<Link>) { forall e :: e in edges <==> e == Edge("x", "z", None) }

  lemma CandidateRest(w: Definition)
    requires FallsBack(w) && Accepts(w)
    ensures Merged(w, Extract(w)) == w.(edges := Merged(w, Extract(w)).edges)
  {
    hide Accepts, Merged, Extract, FallsBack;
    NodesMergedBack(w);
    MergedRest(w);
  }

  lemma CandidateEdges(w: Definition)
    requires FallsBack(w) && Accepts(w)
    ensures OnlyLast(Merged(w, Extract(w)).edges)
  {
    hide Accepts, Merged, Extract, ExplicitScopes, Distinct;
    var candidate, ids := Merged(w, Extract(w)), NodeIds(w.nodes);
    assert w.edges[2] in w.edges;
    forall e ensures e in candidate.edges <==> e == Edge("x", "z", None) {
      EdgesMergedBack(w, e);
      JoinsNodes(w.edges, ids, e);
    }
  }

  /** Only the last of the three edges joins two nodes. */
  lemma JoinsNodes(edges: seq<Link>, ids: seq<Id>, e: Link)
    requires edges == [Edge("a", "g", None), Edge("g", "x", None), Edge("x", "z", None)]
    requires forall id :: id in ids <==> id in {"a", "x", "z", "m", "k"}
    ensures e in edges && (e.when.None? ==> e.from in ids && e.to in ids) <==> e == Edge("x", "z", None)
  {
    assert edges[2] in edges;
  }

  lemma CandidateStraight(w: Definition, candidate: Definition)
    requires FallsBack(w) && candidate == w.(edges := candidate.edges) && Accepts(candidate) && OnlyLast(candidate.edges)
    ensures Straight(candidate)
  {
    hide Accepts, EdgesOk, Acyclic, EntityIds, GroupsOk, ExplicitScopes, HasCrossEdge, ValidationScopes, Distinct;
    SameGroups(w, candidate);
    NoNodesNoEdges(candidate);
    forall e | e in candidate.edges ensures e == Edge("x", "z", None) {}
  }

  lemma SameGroups(w: Definition, candidate: Definition)
    requires FallsBack(w) && candidate == w.(edges := candidate.edges)
    ensures GroupsOk(candidate)
  {
    hide ExplicitScopes;
  }

  /** There x has no scope any more, and its edge crosses branches. */
  lemma CandidateRejected(w: Definition, candidate: Definition)
    requires FallsBack(w) && candidate == w.(edges := candidate.edges) && OnlyLast(candidate.edges)
    ensures !Accepts(candidate)
  {
    hide Accepts, Straight, ExplicitScopes, ValidationScopes;
    if Accepts(candidate) {
      CandidateStraight(w, candidate);
      SourceOfNothingUnscoped(candidate, "x");
      ExplicitIsScoped(candidate, "z");
      var last: Link := Edge("x", "z", None);
      assert last in candidate.edges && CrossBranch(last, ValidationScopes(candidate));
      StraightAccepted(candidate);
    }
  }

  lemma TouchesGroup(w: Definition)
    requires FallsBack(w)
    ensures !DependenciesJoinNodes(w)
  {
    hide ExplicitScopes;
    assert w.edges[0] in w.edges && w.edges[0].to !in NodeIds(w.nodes);
  }

  /** An accepted workflow with dependency edges at a group, whose own template leaves all its edges as they are. */
  lemma MergeCanFallBack()
    ensures var w := Fallback();
            && Accepts(w) && !DependenciesJoinNodes(w) && !Accepts(Merged(w, Extract(w)))
            && ToSet(Merge(w, Extract(w)).edges) == ToSet(w.edges)
  {
    hide Fallback, FallsBack, Accepts, Merged, Extract, DependenciesJoinNodes, OnlyLast;
    var w := Fallback();
    FallbackFallsBack();
    FallbackAccepted(w);
    TouchesGroup(w);
    CandidateRest(w);
    CandidateEdges(w);
    CandidateRejected(w, Merged(w, Extract(w)));
  }

  // ---------------------------------------------------------------- a template that does not come back

  function EmptyWorkflow(): Definition { Definition(Scheduler(true, true, 1, 100), [], None, [], [], []) }

  lemma ClashingEdges(t: TemplateNode)
    ensures Merged(EmptyWorkflow(), Clashing(t)).edges == [Edge("a", "b||c", None)]
  {
    var template, ids := Clashing(t), TemplateIds(Clashing(t));
    ClashingIds(t);
    var one, two := Edge("a", "b||c", None), Edge("a||b", "c", None);
    assert template[..3][..2][..1][..0] == [];
    assert Declared(template[..3][..2][..1], ids) == [];
    assert Declared(template[..3][..2], ids) == [];
    DependsOnOne("a", "b||c", ids);
    DependsOnOne("a||b", "c", ids);
    assert Declared(template[..3], ids) == [one];
    assert Declared(template, ids) == [one, two];
    assert EdgeKey(one) == "a||b||c" == EdgeKey(two);
    assert KeepFirstOf([one, two], 1) == [one];
    assert one in [one] && KeySeen([one], EdgeKey(two));
    assert KeepFirst([one, two]) == [one];
    assert [one, two] + Conditional([], ids, []) == [one, two];
  }

  lemma DependsOnOne(from: Id, to: Id, ids: seq<Id>)
    requires from in ids
    ensures DeclaredBy([from], to, ids) == [Edge(from, to, None)]
  {
    assert [from][..0] == [];
  }

  lemma ClashingStraight(t: TemplateNode)
    ensures Straight(Merged(EmptyWorkflow(), Clashing(t)))
  {
    var w, order := Merged(EmptyWorkflow(), Clashing(t)), ["a", "b||c"];
    hide Clashing, Acyclic, Merged, EdgesOk, EntityIds, Unadorned, Distinct;
    ClashingIds(t);
    ClashingEdges(t);
    ClashingNodes(t);
    OneEdge(w, w.edges, order);
  }

  lemma OneEdge(w: Definition, edges: seq<Link>, order: seq<Id>)
    requires order == ["a", "b||c"] && edges == [Edge("a", "b||c", None)] && forall id :: id in order ==> id in NodeIds(w.nodes)
    ensures Acyclic(edges) && EdgesOk(EntityIds(w), edges)
  {
    assert order[..1] == ["a"];
    OrderedIsAcyclic(edges, order, order);
  }

  lemma ClashingNodes(t: TemplateNode)
    ensures var w := Merged(EmptyWorkflow(), Clashing(t));
            && w.groups == [] && NodeIds(w.nodes) == TemplateIds(Clashing(t)) && GroupsOk(w)
            && (forall n :: n in w.nodes ==> n.branchScopeId.None?)
            && (w.edges == [Edge("a", "b||c", None)] ==> Unadorned(w))
  {
    hide Clashing;
    var w := Merged(EmptyWorkflow(), Clashing(t));
    assert NodeIds(w.nodes) == TemplateIds(Clashing(t));
    forall n | n in w.nodes ensures n.parallelGroupId.None? && n.routeAllowed.None? && n.dependencyPolicy == Some("all") && n.branchScopeId.None? {
      var i :| 0 <= i < |w.nodes| && w.nodes[i] == n;
      assert n == MergedNode(EmptyWorkflow(), Clashing(t)[i]);
    }
  }

  /** This template merges into an empty workflow, and what is extracted afterwards is another one: a dependency is lost. */
  lemma ClashingIsLost(t: TemplateNode)
    ensures var merged := Merged(EmptyWorkflow(), Clashing(t));
            && WellFormed(Clashing(t)) && Accepts(merged) && Merge(EmptyWorkflow(), Clashing(t)) == merged
            && Extract(Merge(EmptyWorkflow(), Clashing(t))) != Clashing(t)
  {
    var w := Merged(EmptyWorkflow(), Clashing(t));
    ClashingStraight(t);
    ClashingNodes(t);
    hide Clashing, Merged, Straight, Accepts;
    UnscopedAccepted(w);
    KeysCanClash(t);
    ExtractAfterMerge(EmptyWorkflow(), Clashing(t));
  }
}
