/** Branch scopes: which conditional branch, if any, each entity belongs to. */
module BranchRules {
  import opened Common
  import opened Digraph
  import opened Workflow

  /** A missing key and a key mapped to None both mean "no scope". */
  type Scopes = map<Id, Option<string>>

  function ScopeOf(scopes: Scopes, id: Id): Option<string> {
    if id in scopes then scopes[id] else None
  }

  predicate Scoped(scopes: Scopes, id: Id) {
    ScopeOf(scopes, id).Some?
  }

  function InitialScopes(ids: seq<Id>, explicit: map<Id, string>): Scopes {
    map id | id in ids :: if id in explicit then Some(explicit[id]) else None
  }

  /** A route edge gives an unscoped target its source's scope, or a new one named after the route. */
  function SeedRoute(edge: Link, scopes: Scopes): Scopes {
    if edge.when.None? || Scoped(scopes, edge.to) then scopes
    else if Scoped(scopes, edge.from) then scopes[edge.to := ScopeOf(scopes, edge.from)]
    else scopes[edge.to := Some(edge.from + ":" + edge.when.value)]
  }

  function SeedRoutes(edges: seq<Link>, scopes: Scopes): Scopes {
    if edges == [] then scopes else SeedRoutes(edges[1..], SeedRoute(edges[0], scopes))
  }

  /** An unconditional edge passes its source's scope on to an unscoped target. */
  function Spread(edge: Link, scopes: Scopes): Scopes {
    if edge.when.Some? || !Scoped(scopes, edge.from) || Scoped(scopes, edge.to) then scopes
    else scopes[edge.to := ScopeOf(scopes, edge.from)]
  }

  function Sweep(edges: seq<Link>, scopes: Scopes): Scopes {
    if edges == [] then scopes else Sweep(edges[1..], Spread(edges[0], scopes))
  }

  ghost function OpenTargets(edges: seq<Link>, scopes: Scopes): set<Id> {
    set e | e in edges && !Scoped(scopes, e.to) :: e.to
  }

  /** Sweeps until a whole sweep changes nothing. */
  function Propagate(edges: seq<Link>, scopes: Scopes): Scopes
    decreases |OpenTargets(edges, scopes)|
  {
    var next := Sweep(edges, scopes);
    if next == scopes then scopes
    else
      SweepShrinks(edges, edges, scopes);
      Propagate(edges, next)
  }

  function ComputeScopes(ids: seq<Id>, edges: seq<Link>, explicit: map<Id, string>): Scopes {
    Propagate(edges, SeedRoutes(edges, InitialScopes(ids, explicit)))
  }

  /** An unconditional edge between entities of different scopes, unless it leads back to the mainline. */
  predicate CrossBranch(edge: Link, scopes: Scopes) {
    && edge.when.None?
    && ScopeOf(scopes, edge.from) != ScopeOf(scopes, edge.to)
    && !(Scoped(scopes, edge.from) && !Scoped(scopes, edge.to))
  }

  // ---------------------------------------------------------------- scopes are only ever added

  ghost predicate Grows(before: Scopes, after: Scopes) {
    && before.Keys <= after.Keys
    && forall id :: Scoped(before, id) ==> ScopeOf(after, id) == ScopeOf(before, id)
  }

  lemma {:induction false} SeedRoutesGrows(edges: seq<Link>, scopes: Scopes)
    ensures Grows(scopes, SeedRoutes(edges, scopes))
  {
    if edges == [] {
    } else {
      SeedRoutesGrows(edges[1..], SeedRoute(edges[0], scopes));
    }
  }

  lemma {:induction false} SweepGrows(edges: seq<Link>, scopes: Scopes)
    ensures Grows(scopes, Sweep(edges, scopes))
  {
    if edges == [] {
    } else {
      SweepGrows(edges[1..], Spread(edges[0], scopes));
    }
  }

  lemma {:induction false} SweepShrinks(suffix: seq<Link>, edges: seq<Link>, scopes: Scopes)
    requires forall e :: e in suffix ==> e in edges
    ensures Sweep(suffix, scopes) != scopes ==>
              |OpenTargets(edges, Sweep(suffix, scopes))| < |OpenTargets(edges, scopes)|
  {
    if suffix == [] {
    } else {
      var first := Spread(suffix[0], scopes);
      SweepShrinks(suffix[1..], edges, first);
      if first != scopes {
        SweepGrows(suffix[1..], first);
        assert suffix[0].to in OpenTargets(edges, scopes) - OpenTargets(edges, first);
        assert OpenTargets(edges, first) <= OpenTargets(edges, scopes) - {suffix[0].to};
        SubsetSize(OpenTargets(edges, first), OpenTargets(edges, scopes) - {suffix[0].to});
        if Sweep(suffix, scopes) == first {
        } else {
          assert Sweep(suffix[1..], first) != first;
        }
      }
    }
  }

  lemma {:induction false} PropagateGrows(edges: seq<Link>, scopes: Scopes)
    ensures Grows(scopes, Propagate(edges, scopes))
    decreases |OpenTargets(edges, scopes)|
  {
    var next := Sweep(edges, scopes);
    if next == scopes {
    } else {
      SweepGrows(edges, scopes);
      SweepShrinks(edges, edges, scopes);
      PropagateGrows(edges, next);
    }
  }

  /** Explicit scopes and the scopes set by route edges survive to the end. */
  lemma NeverOverwritten(ids: seq<Id>, edges: seq<Link>, explicit: map<Id, string>)
    ensures Grows(InitialScopes(ids, explicit), ComputeScopes(ids, edges, explicit))
    ensures Grows(SeedRoutes(edges, InitialScopes(ids, explicit)), ComputeScopes(ids, edges, explicit))
  {
    SeedRoutesGrows(edges, InitialScopes(ids, explicit));
    PropagateGrows(edges, SeedRoutes(edges, InitialScopes(ids, explicit)));
  }

  // ---------------------------------------------------------------- the loops

  method ComputeNodeScopes(ids: seq<Id>, edges: seq<Link>, explicit: map<Id, string>) returns (scopes: Scopes)
    ensures scopes == ComputeScopes(ids, edges, explicit)
  {
    scopes := InitialScopes(ids, explicit);
    for i := 0 to |edges|
      invariant SeedRoutes(edges[i..], scopes) == SeedRoutes(edges, InitialScopes(ids, explicit))
    {
      assert edges[i..][1..] == edges[i + 1..];
      scopes := SeedRoute(edges[i], scopes);
    }
    var changed := true;
    while changed
      invariant Propagate(edges, scopes) == ComputeScopes(ids, edges, explicit)
      invariant !changed ==> Sweep(edges, scopes) == scopes
      decreases changed, |OpenTargets(edges, scopes)|
    {
      ghost var before := scopes;
      changed := false;
      for i := 0 to |edges|
        invariant Sweep(edges[i..], scopes) == Sweep(edges, before)
        invariant changed <==> scopes != before
        invariant Grows(before, scopes)
      {
        assert edges[i..][1..] == edges[i + 1..];
        if edges[i].when.None? && Scoped(scopes, edges[i].from) && !Scoped(scopes, edges[i].to) {
          scopes := scopes[edges[i].to := ScopeOf(scopes, edges[i].from)];
          changed := true;
        }
      }
      SweepShrinks(edges, edges, before);
    }
  }

  // ---------------------------------------------------------------- who gets a scope, and which

  function Unconditional(edges: seq<Link>): (r: seq<Link>)
    ensures forall e :: e in r <==> e in edges && e.when.None?
  {
    Filter(edges, (e: Link) => e.when.None?)
  }

  ghost predicate Seeded(ids: seq<Id>, edges: seq<Link>, explicit: map<Id, string>, id: Id) {
    || (id in ids && id in explicit)
    || exists e :: e in edges && e.when.Some? && e.to == id
  }

  /** `p` follows unconditional edges from an explicitly scoped entity or a route target to `id`. */
  ghost predicate SeedPath(ids: seq<Id>, edges: seq<Link>, explicit: map<Id, string>, p: seq<Id>, id: Id) {
    && IsPath(Unconditional(edges), p)
    && Seeded(ids, edges, explicit, p[0])
    && p[|p| - 1] == id
  }

  /** Every entity on `p` has the scope of its last one. */
  ghost predicate SameScopeAlong(scopes: Scopes, p: seq<Id>) {
    p != [] && forall i :: 0 <= i < |p| ==> ScopeOf(scopes, p[i]) == ScopeOf(scopes, p[|p| - 1])
  }

  ghost predicate ScopePath(edges: seq<Link>, base: Scopes, scopes: Scopes, p: seq<Id>, id: Id) {
    && IsPath(Unconditional(edges), p)
    && Scoped(base, p[0])
    && p[|p| - 1] == id
    && SameScopeAlong(scopes, p)
  }

  ghost predicate Justified(edges: seq<Link>, base: Scopes, scopes: Scopes) {
    forall id :: Scoped(scopes, id) ==> exists p :: ScopePath(edges, base, scopes, p, id)
  }

  lemma {:induction false} RouteSeeds(edges: seq<Link>, scopes: Scopes, id: Id)
    ensures Scoped(SeedRoutes(edges, scopes), id) <==>
              Scoped(scopes, id) || exists e :: e in edges && e.when.Some? && e.to == id
  {
    if edges == [] {
    } else {
      assert edges == [edges[0]] + edges[1..];
      RouteSeeds(edges[1..], SeedRoute(edges[0], scopes), id);
    }
  }

  lemma SpreadJustified(edges: seq<Link>, base: Scopes, scopes: Scopes, edge: Link)
    requires Justified(edges, base, scopes) && edge in edges
    ensures Justified(edges, base, Spread(edge, scopes))
  {
    var after := Spread(edge, scopes);
    if after != scopes {
      forall id | Scoped(after, id)
        ensures exists p :: ScopePath(edges, base, after, p, id)
      {
        var source := if id == edge.to then edge.from else id;
        assert Scoped(scopes, source);
        var p :| ScopePath(edges, base, scopes, p, source);
        assert forall i :: 0 <= i < |p| ==> p[i] != edge.to;
        if id == edge.to {
          assert Joined(Unconditional(edges), p[|p| - 1], edge.to) by { assert edge in Unconditional(edges); }
          assert ScopePath(edges, base, after, p + [edge.to], id);
        } else {
          assert ScopePath(edges, base, after, p, id);
        }
      }
    }
  }

  lemma {:induction false} SweepJustified(suffix: seq<Link>, edges: seq<Link>, base: Scopes, scopes: Scopes)
    requires Justified(edges, base, scopes) && forall e :: e in suffix ==> e in edges
    ensures Justified(edges, base, Sweep(suffix, scopes))
  {
    if suffix == [] {
    } else {
      SpreadJustified(edges, base, scopes, suffix[0]);
      SweepJustified(suffix[1..], edges, base, Spread(suffix[0], scopes));
    }
  }

  lemma {:induction false} PropagateJustified(edges: seq<Link>, base: Scopes, scopes: Scopes)
    requires Justified(edges, base, scopes)
    ensures Justified(edges, base, Propagate(edges, scopes))
    ensures Sweep(edges, Propagate(edges, scopes)) == Propagate(edges, scopes)
    decreases |OpenTargets(edges, scopes)|
  {
    if Sweep(edges, scopes) == scopes {
    } else {
      SweepJustified(edges, edges, base, scopes);
      SweepShrinks(edges, edges, scopes);
      PropagateJustified(edges, base, Sweep(edges, scopes));
    }
  }

  lemma {:induction false} SweepFixed(suffix: seq<Link>, scopes: Scopes)
    requires Sweep(suffix, scopes) == scopes
    ensures forall e :: e in suffix && e.when.None? && Scoped(scopes, e.from) ==> Scoped(scopes, e.to)
  {
    if suffix == [] {
    } else {
      SweepGrows(suffix[1..], Spread(suffix[0], scopes));
      assert Spread(suffix[0], scopes) == scopes;
      SweepFixed(suffix[1..], scopes);
      assert suffix == [suffix[0]] + suffix[1..];
    }
  }

  lemma {:induction false} ClosedAlong(edges: seq<Link>, scopes: Scopes, p: seq<Id>)
    requires IsPath(Unconditional(edges), p) && Scoped(scopes, p[0])
    requires Sweep(edges, scopes) == scopes
    ensures Scoped(scopes, p[|p| - 1])
    decreases |p|
  {
    if |p| <= 1 {
    } else {
      SweepFixed(edges, scopes);
      assert Joined(Unconditional(edges), p[0], p[0 + 1]);
      forall i | 0 <= i < |p[1..]| - 1 ensures Joined(Unconditional(edges), p[1..][i], p[1..][i + 1]) {
        assert Joined(Unconditional(edges), p[i + 1], p[i + 1 + 1]);
      }
      ClosedAlong(edges, scopes, p[1..]);
    }
  }

  /**
   * An entity gets a scope exactly when unconditional edges lead to it from an explicitly scoped
   * node or a route target; the scope it gets is then the one all along some such path.
   */
  lemma ScopedExactly(ids: seq<Id>, edges: seq<Link>, explicit: map<Id, string>, id: Id)
    ensures var scopes := ComputeScopes(ids, edges, explicit);
            && (Scoped(scopes, id) <==> exists p :: SeedPath(ids, edges, explicit, p, id))
            && (Scoped(scopes, id) ==>
                  exists p :: SeedPath(ids, edges, explicit, p, id) && SameScopeAlong(scopes, p))
  {
    var base := SeedRoutes(edges, InitialScopes(ids, explicit));
    var scopes := ComputeScopes(ids, edges, explicit);
    forall y ensures Scoped(base, y) <==> Seeded(ids, edges, explicit, y) {
      RouteSeeds(edges, InitialScopes(ids, explicit), y);
    }
    forall y | Scoped(base, y) ensures exists p :: ScopePath(edges, base, base, p, y) {
      assert ScopePath(edges, base, base, [y], y);
    }
    PropagateJustified(edges, base, base);
    PropagateGrows(edges, base);
    if Scoped(scopes, id) {
      var p :| ScopePath(edges, base, scopes, p, id);
      assert SeedPath(ids, edges, explicit, p, id);
    }
    forall p | SeedPath(ids, edges, explicit, p, id) ensures Scoped(scopes, id) {
      ClosedAlong(edges, scopes, p);
    }
  }

  // ---------------------------------------------------------------- unscoped seeds are invisible

  ghost predicate SameScopes(a: Scopes, b: Scopes) {
    forall id :: ScopeOf(a, id) == ScopeOf(b, id)
  }

  lemma SetAgrees(a: Scopes, b: Scopes, target: Id, scope: Option<string>)
    requires SameScopes(a, b)
    ensures SameScopes(a[target := scope], b[target := scope])
  {
    var a', b' := a[target := scope], b[target := scope];
    forall id ensures ScopeOf(a', id) == ScopeOf(b', id) {
      assert ScopeOf(a, id) == ScopeOf(b, id);
    }
  }

  lemma {:induction false} SeedRoutesAgree(edges: seq<Link>, a: Scopes, b: Scopes)
    requires SameScopes(a, b)
    ensures SameScopes(SeedRoutes(edges, a), SeedRoutes(edges, b))
  {
    if edges == [] {
    } else {
      var e := edges[0];
      assert ScopeOf(a, e.to) == ScopeOf(b, e.to) && ScopeOf(a, e.from) == ScopeOf(b, e.from);
      SetAgrees(a, b, e.to, ScopeOf(SeedRoute(e, a), e.to));
      SeedRoutesAgree(edges[1..], SeedRoute(e, a), SeedRoute(e, b));
    }
  }

  lemma {:induction false} SweepAgrees(edges: seq<Link>, a: Scopes, b: Scopes)
    requires SameScopes(a, b)
    ensures SameScopes(Sweep(edges, a), Sweep(edges, b))
    ensures Sweep(edges, a) == a ==> Sweep(edges, b) == b
  {
    if edges == [] {
    } else {
      var e := edges[0];
      assert ScopeOf(a, e.to) == ScopeOf(b, e.to) && ScopeOf(a, e.from) == ScopeOf(b, e.from);
      SetAgrees(a, b, e.to, ScopeOf(a, e.from));
      SweepAgrees(edges[1..], Spread(e, a), Spread(e, b));
      SweepGrows(edges[1..], Spread(e, a));
    }
  }

  lemma {:induction false} PropagateAgrees(edges: seq<Link>, a: Scopes, b: Scopes)
    requires SameScopes(a, b)
    ensures SameScopes(Propagate(edges, a), Propagate(edges, b))
    decreases |OpenTargets(edges, a)|
  {
    SweepAgrees(edges, a, b);
    SweepAgrees(edges, b, a);
    if Sweep(edges, a) == a {
    } else {
      SweepShrinks(edges, edges, a);
      PropagateAgrees(edges, Sweep(edges, a), Sweep(edges, b));
    }
  }

  /** Seeding further entities without an explicit scope changes no answer. */
  lemma UnscopedSeedsInvisible(ids: seq<Id>, more: seq<Id>, edges: seq<Link>, explicit: map<Id, string>)
    requires forall id :: id in explicit ==> id in ids
    ensures SameScopes(ComputeScopes(ids, edges, explicit), ComputeScopes(ids + more, edges, explicit))
  {
    var a, b := InitialScopes(ids, explicit), InitialScopes(ids + more, explicit);
    SeedRoutesAgree(edges, a, b);
    PropagateAgrees(edges, SeedRoutes(edges, a), SeedRoutes(edges, b));
  }
}
