/** Workflows that validation accepts unless an edge crosses branches: unconditional edges only, and no merge node. */
module StraightWorkflows {
  import opened Common
  import opened Digraph
  import opened Workflow
  import opened BranchRules
  import opened WorkflowGraph
  import opened Acyclicity
  import opened Validate

  /** Unconditional edges only, none of them to a member of a group, and no merge node. */
  ghost predicate Straight(w: Definition) {
    && w.nodes != []
    && Distinct(NodeIds(w.nodes)) && EdgesOk(EntityIds(w), w.edges) && GroupsOk(w) && Acyclic(w.edges)
    && Unadorned(w)
  }

  ghost predicate Unadorned(w: Definition) {
    && (forall e :: e in w.edges ==> e.when.None?)
    && (forall n :: n in w.nodes ==>
          n.parallelGroupId.None? && n.routeAllowed.None? && n.dependencyPolicy in {None, Some("all")})
    && (forall g :: g in w.groups ==> g.joinPolicy == "all")
    && (forall g, e :: g in w.groups && e in w.edges ==> e.to !in g.members)
  }

  lemma StraightAccepted(w: Definition)
    requires Straight(w)
    ensures Accepts(w) <==> !HasCrossEdge(w, ValidationScopes(w))
  {
  }

  // ---------------------------------------------------------------- scopes when there is one scope at most

  lemma NothingErased(w: Definition)
    requires Straight(w)
    ensures ValidationScopes(w) == ComputeScopes(NodeIds(w.nodes), w.edges, ExplicitScopes(w.nodes))
  {
    var erased: Scopes := map node | node in w.nodes && IsMerge(node) :: node.id := None;
    assert forall n :: n in w.nodes ==> !IsMerge(n);
    assert erased == map[];
  }

  /** Every scope there is comes from an explicit one. */
  lemma OnlyScope(w: Definition, scope: string, id: Id)
    requires Straight(w) && forall x :: x in ExplicitScopes(w.nodes) ==> ExplicitScopes(w.nodes)[x] == scope
    ensures ScopeOf(ValidationScopes(w), id) in {None, Some(scope)}
  {
    NothingErased(w);
    var ids, explicit := NodeIds(w.nodes), ExplicitScopes(w.nodes);
    ScopedExactly(ids, w.edges, explicit, id);
    NeverOverwritten(ids, w.edges, explicit);
    if Scoped(ComputeScopes(ids, w.edges, explicit), id) {
      var p :| SeedPath(ids, w.edges, explicit, p, id) && SameScopeAlong(ComputeScopes(ids, w.edges, explicit), p);
      assert Scoped(InitialScopes(ids, explicit), p[0]);
    }
  }

  lemma ExplicitIsScoped(w: Definition, id: Id)
    requires Straight(w) && id in ExplicitScopes(w.nodes)
    ensures Scoped(ValidationScopes(w), id)
  {
    NothingErased(w);
    NeverOverwritten(NodeIds(w.nodes), w.edges, ExplicitScopes(w.nodes));
    assert Scoped(InitialScopes(NodeIds(w.nodes), ExplicitScopes(w.nodes)), id);
  }

  lemma TargetIsScoped(w: Definition, e: Link)
    requires Straight(w) && e in w.edges && Scoped(ValidationScopes(w), e.from)
    ensures Scoped(ValidationScopes(w), e.to)
  {
    NothingErased(w);
    assert e.when.None?;
    hide Straight, ComputeScopes, ExplicitScopes, ValidationScopes;
    ScopeSpreads(NodeIds(w.nodes), w.edges, ExplicitScopes(w.nodes), e);
  }

  /** An unconditional edge passes the scope of its source on. */
  lemma ScopeSpreads(ids: seq<Id>, edges: seq<Link>, explicit: map<Id, string>, e: Link)
    requires e in edges && e.when.None? && Scoped(ComputeScopes(ids, edges, explicit), e.from)
    ensures Scoped(ComputeScopes(ids, edges, explicit), e.to)
  {
    hide ComputeScopes, SeedPath, SameScopeAlong;
    ScopedExactly(ids, edges, explicit, e.from);
    ScopedExactly(ids, edges, explicit, e.to);
    var p :| SeedPath(ids, edges, explicit, p, e.from);
    SeedPathExtends(ids, edges, explicit, p, e);
  }

  lemma SeedPathExtends(ids: seq<Id>, edges: seq<Link>, explicit: map<Id, string>, p: seq<Id>, e: Link)
    requires e in edges && e.when.None? && SeedPath(ids, edges, explicit, p, e.from)
    ensures SeedPath(ids, edges, explicit, p + [e.to], e.to)
  {
    assert e in Unconditional(edges);
    hide Seeded, Unconditional;
    assert Joined(Unconditional(edges), p[|p| - 1], e.to);
  }

  lemma PathIsAlone(edges: seq<Link>, p: seq<Id>)
    requires IsPath(edges, p) && forall e :: e in edges ==> e.to != p[|p| - 1]
    ensures |p| == 1
  {
    var n := |p| - 2;
    assert |p| > 1 ==> Joined(edges, p[n], p[n + 1]);
  }

  lemma NoSeedPath(ids: seq<Id>, edges: seq<Link>, explicit: map<Id, string>, id: Id, p: seq<Id>)
    requires id !in explicit && forall e :: e in edges ==> e.to != id
    ensures !SeedPath(ids, edges, explicit, p, id)
  {
    hide Unconditional;
    if SeedPath(ids, edges, explicit, p, id) {
      PathIsAlone(Unconditional(edges), p);
      assert false;
    }
  }

  lemma SourceOfNothingUnscoped(w: Definition, id: Id)
    requires Straight(w) && id !in ExplicitScopes(w.nodes) && forall e :: e in w.edges ==> e.to != id
    ensures !Scoped(ValidationScopes(w), id)
  {
    NothingErased(w);
    hide Straight, ComputeScopes, ExplicitScopes, ValidationScopes, SeedPath, SameScopeAlong;
    var ids, explicit := NodeIds(w.nodes), ExplicitScopes(w.nodes);
    ScopedExactly(ids, w.edges, explicit, id);
    forall p ensures !SeedPath(ids, w.edges, explicit, p, id) { NoSeedPath(ids, w.edges, explicit, id, p); }
  }

  lemma {:induction false} NoExplicitScopes(nodes: seq<Node>)
    requires forall n :: n in nodes ==> n.branchScopeId.None?
    ensures ExplicitScopes(nodes) == map[]
    decreases |nodes|
  {
    if nodes == [] {
    } else {
      NoExplicitScopes(nodes[1..]);
    }
  }

  /** Without explicit scopes there is no scope at all, so nothing crosses branches. */
  lemma UnscopedAccepted(w: Definition)
    requires Straight(w) && forall n :: n in w.nodes ==> n.branchScopeId.None?
    ensures Accepts(w)
  {
    hide Straight, ValidationScopes, Accepts, ExplicitScopes;
    NoExplicitScopes(w.nodes);
    forall e | e in w.edges ensures !CrossBranch(e, ValidationScopes(w)) {
      OnlyScope(w, "none", e.from);
      OnlyScope(w, "none", e.to);
      OnlyScope(w, "other", e.from);
      OnlyScope(w, "other", e.to);
    }
    StraightAccepted(w);
  }
}
