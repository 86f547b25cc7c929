/** The template view of a workflow: extracting it, and merging an edited template back. */
module TemplateMapper {
  import opened Common
  import opened Digraph
  import opened Workflow
  import opened Validate

  datatype TemplateNode = TemplateNode(
    id: Id,
    title: string,
    executor: Executor,
    instruction: string,
    outputSpec: OutputSpec,
    dependsOn: seq<Id>,
    allowReject: bool,
    maxRejectCount: int)

  const NEW_NODE_RETRIES := RetryPolicy(2, 0)

  function TemplateIds(template: seq<TemplateNode>): (r: seq<Id>)
    ensures |r| == |template| && forall i :: 0 <= i < |template| ==> r[i] == template[i].id
  {
    seq(|template|, i requires 0 <= i < |template| => template[i].id)
  }

  // ---------------------------------------------------------------- extraction

  /** The sources of the unconditional edges into `id`, in edge order. */
  function Sources(edges: seq<Link>, id: Id): (r: seq<Id>)
    ensures forall x :: x in r <==> Edge(x, id, None) in edges
  {
    if edges == [] then []
    else
      var front, last := Sources(edges[..|edges| - 1], id), edges[|edges| - 1];
      if last.when.None? && last.to == id then front + [last.from] else front
  }

  function TemplateOf(n: Node, edges: seq<Link>): TemplateNode {
    TemplateNode(n.id, n.name, n.executor, n.instruction, n.outputSpec, Dedup(Sources(edges, n.id)), n.allowReject, n.maxRejectCount)
  }

  function Extract(w: Definition): (r: seq<TemplateNode>)
    ensures |r| == |w.nodes| && forall i :: 0 <= i < |w.nodes| ==> r[i] == TemplateOf(w.nodes[i], w.edges)
  {
    seq(|w.nodes|, i requires 0 <= i < |w.nodes| => TemplateOf(w.nodes[i], w.edges))
  }

  ghost predicate Indexed(incoming: map<Id, seq<Id>>, edges: seq<Link>) {
    forall id :: Lookup(incoming, id) == Dedup(Sources(edges, id))
  }

  method CollectIncoming(edges: seq<Link>) returns (incoming: map<Id, seq<Id>>)
    ensures Indexed(incoming, edges)
  {
    incoming := map[];
    for i := 0 to |edges|
      invariant Indexed(incoming, edges[..i])
    {
      var edge := edges[i];
      IndexedStep(incoming, edges, i);
      if edge.when.Some? { continue; }
      incoming := incoming[edge.to := Dedup(Lookup(incoming, edge.to) + [edge.from])];
    }
    assert edges[..|edges|] == edges;
  }

  lemma IndexedStep(incoming: map<Id, seq<Id>>, edges: seq<Link>, i: nat)
    requires i < |edges| && Indexed(incoming, edges[..i])
    ensures var e := edges[i];
            Indexed(if e.when.Some? then incoming else incoming[e.to := Dedup(Lookup(incoming, e.to) + [e.from])], edges[..i + 1])
  {
    var e := edges[i];
    var next := if e.when.Some? then incoming else incoming[e.to := Dedup(Lookup(incoming, e.to) + [e.from])];
    forall id ensures Lookup(next, id) == Dedup(Sources(edges[..i + 1], id)) {
      SourcesStep(edges, i, id);
      assert Lookup(incoming, id) == Dedup(Sources(edges[..i], id));
    }
  }

  method WorkflowToTemplateNodes(w: Definition) returns (template: seq<TemplateNode>)
    ensures template == Extract(w)
  {
    var incoming := CollectIncoming(w.edges);
    template := [];
    for i := 0 to |w.nodes|
      invariant |template| == i && forall k :: 0 <= k < i ==> template[k] == TemplateOf(w.nodes[k], w.edges)
    {
      var n := w.nodes[i];
      template := template +
        [TemplateNode(n.id, n.name, n.executor, n.instruction, n.outputSpec, Lookup(incoming, n.id), n.allowReject, n.maxRejectCount)];
    }
  }

  /** Removing repetitions after every step comes to the same as removing them at the end. */
  lemma SourcesStep(edges: seq<Link>, i: nat, id: Id)
    requires i < |edges|
    ensures Dedup(Sources(edges[..i + 1], id)) ==
              if edges[i].when.None? && edges[i].to == id then Dedup(Dedup(Sources(edges[..i], id)) + [edges[i].from])
              else Dedup(Sources(edges[..i], id))
  {
    assert edges[..i + 1][..i] == edges[..i];
    DedupSnoc(Sources(edges[..i], id), edges[i].from);
  }

  lemma DedupSnoc(s: seq<Id>, x: Id)
    ensures Dedup(s + [x]) == Dedup(Dedup(s) + [x])
    ensures Dedup(s + [x]) == if x in s then Dedup(s) else Dedup(s) + [x]
  {
    DedupOfDistinct(Dedup(s));
    assert (s + [x])[..|s|] == s;
    assert (Dedup(s) + [x])[..|Dedup(s)|] == Dedup(s);
  }

  // ---------------------------------------------------------------- merging

  /** The edges for the dependencies of one template node; those outside of `ids` are left out. */
  function DeclaredBy(dependsOn: seq<Id>, to: Id, ids: seq<Id>): (r: seq<Link>)
    ensures forall e :: e in r <==> e.when.None? && e.to == to && e.from in dependsOn && e.from in ids
  {
    if dependsOn == [] then []
    else
      var front, last := dependsOn[..|dependsOn| - 1], dependsOn[|dependsOn| - 1];
      assert dependsOn == front + [last];
      DeclaredBy(front, to, ids) + if last in ids then [Edge(last, to, None)] else []
  }

  function Declared(template: seq<TemplateNode>, ids: seq<Id>): seq<Link> {
    if template == [] then []
    else
      var last := template[|template| - 1];
      Declared(template[..|template| - 1], ids) + DeclaredBy(last.dependsOn, last.id, ids)
  }

  lemma {:induction false} DeclaredMembers(template: seq<TemplateNode>, ids: seq<Id>, e: Link)
    ensures e in Declared(template, ids) <==> e.when.None? && e.from in ids && exists t :: t in template && Declares(t, e)
  {
    if template == [] {
    } else {
      var front, last := template[..|template| - 1], template[|template| - 1];
      DeclaredMembers(front, ids, e);
      assert template == front + [last];
      assert last in template;
    }
  }

  predicate Declares(t: TemplateNode, e: Link) {
    e.to == t.id && e.from in t.dependsOn
  }

  predicate KeptCondition(e: Link, ids: seq<Id>, groupIds: seq<Id>) {
    e.when.Some? && (e.from in ids || e.from in groupIds) && (e.to in ids || e.to in groupIds)
  }

  function Conditional(edges: seq<Link>, ids: seq<Id>, groupIds: seq<Id>): (r: seq<Link>)
    ensures forall e :: e in r <==> e in edges && KeptCondition(e, ids, groupIds)
  {
    if edges == [] then []
    else (if KeptCondition(edges[0], ids, groupIds) then [edges[0]] else []) + Conditional(edges[1..], ids, groupIds)
  }

  predicate KeySeen(edges: seq<Link>, key: string) { exists e :: e in edges && EdgeKey(e) == key }

  ghost predicate DistinctKeys(edges: seq<Link>) {
    forall i, j :: 0 <= i < j < |edges| ==> EdgeKey(edges[i]) != EdgeKey(edges[j])
  }

  /** The first edge of every key. */
  function KeepFirst(edges: seq<Link>): (r: seq<Link>)
    ensures forall e :: e in r ==> e in edges
  {
    KeepFirstOf(edges, |edges|)
  }

  function KeepFirstOf(edges: seq<Link>, n: nat): (r: seq<Link>)
    requires n <= |edges|
    ensures forall e :: e in r ==> e in edges
  {
    if n == 0 then []
    else
      var front := KeepFirstOf(edges, n - 1);
      if KeySeen(front, EdgeKey(edges[n - 1])) then front else front + [edges[n - 1]]
  }

  lemma {:induction false} EveryKeyKept(edges: seq<Link>, n: nat, i: nat)
    requires i < n <= |edges|
    ensures KeySeen(KeepFirstOf(edges, n), EdgeKey(edges[i]))
    decreases n
  {
    if i >= n - 1 {
    } else {
      EveryKeyKept(edges, n - 1, i);
    }
    SeenSnoc(KeepFirstOf(edges, n - 1), edges[n - 1], EdgeKey(edges[i]));
  }

  lemma {:induction false} KeptKeysDistinct(edges: seq<Link>, n: nat)
    requires n <= |edges|
    ensures DistinctKeys(KeepFirstOf(edges, n))
    decreases n
  {
    if n == 0 {
    } else {
      KeptKeysDistinct(edges, n - 1);
      var front, last := KeepFirstOf(edges, n - 1), edges[n - 1];
      if !KeySeen(front, EdgeKey(last)) { DistinctKeysSnoc(front, last); }
    }
  }

  lemma DistinctKeysSnoc(front: seq<Link>, last: Link)
    requires DistinctKeys(front) && !KeySeen(front, EdgeKey(last))
    ensures DistinctKeys(front + [last])
  {
    assert forall i :: 0 <= i < |front| && EdgeKey(front[i]) == EdgeKey(last) ==> front[i] in front;
  }

  function KeepGroups(groups: seq<Group>, ids: seq<Id>): (r: seq<Group>)
    ensures forall g :: g in r <==> g in groups && forall m :: m in g.members ==> m in ids
  {
    if groups == [] then []
    else (if forall m :: m in groups[0].members ==> m in ids then [groups[0]] else []) + KeepGroups(groups[1..], ids)
  }

  function MergedNode(current: Definition, t: TemplateNode): (r: Node)
    ensures r.id == t.id
  {
    var existing := FindLast(current.nodes, (n: Node) => n.id == t.id);
    if existing.None? then
      Node(t.id, t.title, "task", true, true, MainLane, None, t.executor, "single", "single", Some("all"), None, NEW_NODE_RETRIES,
           t.outputSpec, t.instruction, t.allowReject, t.maxRejectCount, None)
    else
      existing.value.(name := t.title, executor := t.executor, instruction := t.instruction, outputSpec := t.outputSpec,
                      allowReject := t.allowReject, maxRejectCount := t.maxRejectCount)
  }

  function MergedNodes(current: Definition, template: seq<TemplateNode>): (r: seq<Node>)
    ensures |r| == |template| && forall i :: 0 <= i < |template| ==> r[i] == MergedNode(current, template[i])
  {
    seq(|template|, i requires 0 <= i < |template| => MergedNode(current, template[i]))
  }

  function Merged(current: Definition, template: seq<TemplateNode>): Definition {
    var ids := TemplateIds(template);
    current.(
      nodes := MergedNodes(current, template),
      edges := KeepFirst(Declared(template, ids) + Conditional(current.edges, ids, GroupIds(current.groups))),
      groups := KeepGroups(current.groups, ids))
  }

  /** A merge that does not validate leaves the workflow as it is. */
  ghost function Merge(current: Definition, template: seq<TemplateNode>): Definition {
    if Accepts(Merged(current, template)) then Merged(current, template) else current
  }

  method CollectDeclared(template: seq<TemplateNode>, ids: seq<Id>) returns (edges: seq<Link>)
    ensures edges == Declared(template, ids)
  {
    edges := [];
    for i := 0 to |template|
      invariant edges == Declared(template[..i], ids)
    {
      var t := template[i];
      assert template[..i + 1][..i] == template[..i];
      for j := 0 to |t.dependsOn|
        invariant edges == Declared(template[..i], ids) + DeclaredBy(t.dependsOn[..j], t.id, ids)
      {
        assert t.dependsOn[..j + 1][..j] == t.dependsOn[..j];
        if t.dependsOn[j] in ids { edges := edges + [Edge(t.dependsOn[j], t.id, None)]; }
      }
      assert t.dependsOn[..|t.dependsOn|] == t.dependsOn;
    }
    assert template[..|template|] == template;
  }

  method DropRepeatedKeys(edges: seq<Link>) returns (kept: seq<Link>)
    ensures kept == KeepFirst(edges)
  {
    kept := [];
    var seen: set<string> := {};
    for i := 0 to |edges|
      invariant kept == KeepFirstOf(edges, i)
      invariant forall key :: key in seen <==> KeySeen(kept, key)
    {
      if EdgeKey(edges[i]) in seen { continue; }
      ghost var before := kept;
      kept := kept + [edges[i]];
      seen := seen + {EdgeKey(edges[i])};
      forall key ensures key in seen <==> KeySeen(kept, key) {
        SeenSnoc(before, edges[i], key);
      }
    }
  }

  lemma SeenSnoc(edges: seq<Link>, e: Link, key: string)
    ensures KeySeen(edges + [e], key) <==> KeySeen(edges, key) || key == EdgeKey(e)
  {
    if KeySeen(edges, key) {
      var x :| x in edges && EdgeKey(x) == key;
      assert x in edges + [e];
    }
    assert e in edges + [e];
  }

  method MergeTemplateNodesIntoWorkflow(current: Definition, template: seq<TemplateNode>) returns (r: Definition)
    ensures r == Merge(current, template)
  {
    var ids := TemplateIds(template);
    var declared := CollectDeclared(template, ids);
    var edges := DropRepeatedKeys(declared + Conditional(current.edges, ids, GroupIds(current.groups)));
    var merged := current.(nodes := MergedNodes(current, template), edges := edges, groups := KeepGroups(current.groups, ids));
    var verdict := ValidateWorkflowGraph(merged);
    if verdict.Some? { return current; }
    return merged;
  }

  // ---------------------------------------------------------------- extracting what was merged

  /** Unique ids, and dependencies without repetitions inside the template. */
  ghost predicate WellFormed(template: seq<TemplateNode>) {
    && Distinct(TemplateIds(template))
    && forall t :: t in template ==> Distinct(t.dependsOn) && forall d :: d in t.dependsOn ==> d in TemplateIds(template)
  }

  function AllDeclared(template: seq<TemplateNode>): seq<Link> {
    Declared(template, TemplateIds(template))
  }

  /** Two dependencies whose edges read the same although they are not: ids may contain the separator. */
  ghost predicate KeysClash(edges: seq<Link>) {
    exists a, b :: a in edges && b in edges && a != b && EdgeKey(a) == EdgeKey(b)
  }

  lemma {:induction false} SourcesAppend(a: seq<Link>, b: seq<Link>, id: Id)
    ensures Sources(a + b, id) == Sources(a, id) + Sources(b, id)
  {
    if b == [] {
      assert a + b == a;
    } else {
      assert (a + b)[..|a + b| - 1] == a + b[..|b| - 1];
      SourcesAppend(a, b[..|b| - 1], id);
    }
  }

  lemma {:induction false} SourcesDeclaredBy(dependsOn: seq<Id>, to: Id, ids: seq<Id>, id: Id)
    requires forall d :: d in dependsOn ==> d in ids
    ensures Sources(DeclaredBy(dependsOn, to, ids), id) == if to == id then dependsOn else []
  {
    if dependsOn == [] {
    } else {
      var front, last := dependsOn[..|dependsOn| - 1], dependsOn[|dependsOn| - 1];
      assert dependsOn == front + [last];
      SourcesDeclaredBy(front, to, ids, id);
      SourcesAppend(DeclaredBy(front, to, ids), [Edge(last, to, None)], id);
    }
  }

  lemma SourcesDeclaredElsewhere(template: seq<TemplateNode>, ids: seq<Id>, id: Id)
    requires forall t :: t in template ==> t.id != id
    ensures Sources(Declared(template, ids), id) == []
  {
    if Sources(Declared(template, ids), id) != [] {
      var x := Sources(Declared(template, ids), id)[0];
      DeclaredMembers(template, ids, Edge(x, id, None));
      assert false;
    }
  }

  ghost predicate Within(template: seq<TemplateNode>, ids: seq<Id>) {
    forall t, d :: t in template && d in t.dependsOn ==> d in ids
  }

  lemma SourcesDeclaredLast(template: seq<TemplateNode>, ids: seq<Id>, id: Id)
    requires template != [] && Within(template, ids)
    ensures var front, last := template[..|template| - 1], template[|template| - 1];
            Sources(Declared(template, ids), id) == Sources(Declared(front, ids), id) + (if last.id == id then last.dependsOn else [])
  {
    var front, last := template[..|template| - 1], template[|template| - 1];
    assert last in template;
    SourcesDeclaredBy(last.dependsOn, last.id, ids, id);
    SourcesAppend(Declared(front, ids), DeclaredBy(last.dependsOn, last.id, ids), id);
  }

  lemma {:induction false} SourcesDeclared(template: seq<TemplateNode>, ids: seq<Id>, t: TemplateNode)
    requires Distinct(TemplateIds(template)) && t in template && Within(template, ids)
    ensures Sources(Declared(template, ids), t.id) == t.dependsOn
  {
    var front, last := template[..|template| - 1], template[|template| - 1];
    assert template == front + [last];
    FrontDistinct(template);
    SourcesDeclaredLast(template, ids, t.id);
    if t in front {
      OtherId(template, t);
      SourcesDeclared(front, ids, t);
    } else {
      forall u | u in front ensures u.id != t.id { OtherId(template, u); }
      SourcesDeclaredElsewhere(front, ids, t.id);
    }
  }

  lemma FrontDistinct(template: seq<TemplateNode>)
    requires template != [] && Distinct(TemplateIds(template))
    ensures Distinct(TemplateIds(template[..|template| - 1]))
  {
    var front := template[..|template| - 1];
    forall i, j | 0 <= i < j < |front| ensures TemplateIds(front)[i] != TemplateIds(front)[j] {
      assert TemplateIds(template)[i] != TemplateIds(template)[j];
    }
  }

  lemma OtherId(template: seq<TemplateNode>, t: TemplateNode)
    requires template != [] && Distinct(TemplateIds(template)) && t in template[..|template| - 1]
    ensures t.id != template[|template| - 1].id
  {
    var i :| 0 <= i < |template| - 1 && template[..|template| - 1][i] == t;
    assert TemplateIds(template)[i] != TemplateIds(template)[|template| - 1];
  }

  lemma {:induction false} KeepFirstIdle(edges: seq<Link>, n: nat)
    requires DistinctKeys(edges) && n <= |edges|
    ensures KeepFirstOf(edges, n) == edges[..n]
    decreases n
  {
    if n == 0 {
    } else {
      KeepFirstIdle(edges, n - 1);
      NewKey(edges, n - 1);
      assert edges[..n] == edges[..n - 1] + [edges[n - 1]];
    }
  }

  lemma NewKey(edges: seq<Link>, n: nat)
    requires DistinctKeys(edges) && n < |edges|
    ensures !KeySeen(edges[..n], EdgeKey(edges[n]))
  {
    forall e | e in edges[..n] ensures EdgeKey(e) != EdgeKey(edges[n]) {
      var i :| 0 <= i < n && edges[..n][i] == e;
      assert edges[i] == e;
    }
  }

  lemma {:induction false} KeepFirstPrefix(a: seq<Link>, b: seq<Link>, n: nat)
    requires n <= |a|
    ensures KeepFirstOf(a + b, n) == KeepFirstOf(a, n)
    decreases n
  {
    if n == 0 {
    } else {
      KeepFirstPrefix(a, b, n - 1);
    }
  }

  /** Later edges only add to what is kept of the earlier ones. */
  lemma {:induction false} KeepFirstAppend(a: seq<Link>, b: seq<Link>, m: nat) returns (rest: seq<Link>)
    requires m <= |b|
    ensures KeepFirstOf(a + b, |a| + m) == KeepFirst(a) + rest && forall e :: e in rest ==> e in b
    decreases m
  {
    if m == 0 {
      rest := [];
      KeepFirstPrefix(a, b, |a|);
    } else {
      rest := KeepFirstAppend(a, b, m - 1);
      var last := b[m - 1];
      assert (a + b)[|a| + m - 1] == last;
      if !KeySeen(KeepFirstOf(a + b, |a| + m - 1), EdgeKey(last)) { rest := rest + [last]; }
    }
  }

  lemma {:induction false} SourcesOfConditional(edges: seq<Link>, id: Id)
    requires forall e :: e in edges ==> e.when.Some?
    ensures Sources(edges, id) == []
  {
    if edges == [] {
    } else {
      assert edges[|edges| - 1] in edges;
      SourcesOfConditional(edges[..|edges| - 1], id);
    }
  }

  lemma {:induction false} DeclaredByDistinct(dependsOn: seq<Id>, to: Id, ids: seq<Id>)
    requires Distinct(dependsOn)
    ensures Distinct(DeclaredBy(dependsOn, to, ids))
  {
    if dependsOn == [] {
    } else {
      var front, last := dependsOn[..|dependsOn| - 1], dependsOn[|dependsOn| - 1];
      DeclaredByDistinct(front, to, ids);
      assert last !in front;
      DistinctAppend(DeclaredBy(front, to, ids), [Edge(last, to, None)]);
    }
  }

  lemma {:induction false} DeclaredDistinct(template: seq<TemplateNode>, ids: seq<Id>)
    requires Distinct(TemplateIds(template)) && forall t :: t in template ==> Distinct(t.dependsOn)
    ensures Distinct(Declared(template, ids))
  {
    if template == [] {
    } else {
      var front, last := template[..|template| - 1], template[|template| - 1];
      assert last in template;
      FrontDistinct(template);
      DeclaredDistinct(front, ids);
      DeclaredByDistinct(last.dependsOn, last.id, ids);
      forall e | e in Declared(front, ids) ensures e !in DeclaredBy(last.dependsOn, last.id, ids) {
        DeclaredMembers(front, ids, e);
        var t :| t in front && Declares(t, e);
        OtherId(template, t);
      }
      DistinctAppend(Declared(front, ids), DeclaredBy(last.dependsOn, last.id, ids));
    }
  }

  lemma DistinctAppend(a: seq<Link>, b: seq<Link>)
    requires Distinct(a) && Distinct(b) && forall e :: e in a ==> e !in b
    ensures Distinct(a + b)
  {
    forall i, j | 0 <= i < j < |a + b| ensures (a + b)[i] != (a + b)[j] {
      if i < |a| && j >= |a| { assert a[i] in a && b[j - |a|] in b; }
    }
  }

  lemma NoClashDistinctKeys(edges: seq<Link>)
    requires Distinct(edges) && !KeysClash(edges)
    ensures DistinctKeys(edges)
  {
    forall i, j | 0 <= i < j < |edges| ensures EdgeKey(edges[i]) != EdgeKey(edges[j]) {
      assert edges[i] in edges && edges[j] in edges;
    }
  }

  /** Conditional edges do not disturb what the unconditional ones before them say. */
  lemma KeptSources(declared: seq<Link>, conditional: seq<Link>, id: Id)
    requires DistinctKeys(declared) && forall e :: e in conditional ==> e.when.Some?
    ensures Sources(KeepFirst(declared + conditional), id) == Sources(declared, id)
  {
    var rest := KeptAppend(declared, conditional);
    SourcesOfConditional(rest, id);
    SourcesAppend(declared, rest, id);
  }

  lemma KeptAppend(declared: seq<Link>, conditional: seq<Link>) returns (rest: seq<Link>)
    requires DistinctKeys(declared)
    ensures KeepFirst(declared + conditional) == declared + rest && forall e :: e in rest ==> e in conditional
  {
    KeepFirstIdle(declared, |declared|);
    assert declared[..|declared|] == declared;
    rest := KeepFirstAppend(declared, conditional, |conditional|);
  }

  /** Without a clash the merged edges lead back to the declared dependencies. */
  lemma DependenciesReturn(current: Definition, template: seq<TemplateNode>, i: nat)
    requires WellFormed(template) && !KeysClash(AllDeclared(template)) && i < |template|
    ensures Dedup(Sources(Merged(current, template).edges, template[i].id)) == template[i].dependsOn
  {
    var ids, id := TemplateIds(template), template[i].id;
    DeclaredDistinct(template, ids);
    NoClashDistinctKeys(AllDeclared(template));
    KeptSources(AllDeclared(template), Conditional(current.edges, ids, GroupIds(current.groups)), id);
    assert template[i] in template;
    SourcesDeclared(template, ids, template[i]);
    DedupOfDistinct(template[i].dependsOn);
  }

  /** Of two clashing dependencies one is lost. */
  lemma DependencyLost(current: Definition, template: seq<TemplateNode>)
    requires KeysClash(AllDeclared(template))
    ensures Extract(Merged(current, template)) != template
  {
    var kept, ids := Merged(current, template).edges, TemplateIds(template);
    var a, b :| a in AllDeclared(template) && b in AllDeclared(template) && a != b && EdgeKey(a) == EdgeKey(b);
    var e := if a in kept then b else a;
    var all := AllDeclared(template) + Conditional(current.edges, ids, GroupIds(current.groups));
    KeptKeysDistinct(all, |all|);
    if a in kept && b in kept { SameKeySame(kept, a, b); }
    DeclaredMembers(template, ids, e);
    var t :| t in template && Declares(t, e);
    var i :| 0 <= i < |template| && template[i] == t;
    DependencyMissing(Merged(current, template), template, i, e);
  }

  lemma DependencyMissing(w: Definition, template: seq<TemplateNode>, i: nat, e: Link)
    requires |w.nodes| == |template| && i < |template| && w.nodes[i].id == template[i].id
    requires Declares(template[i], e) && e.when.None? && e !in w.edges
    ensures Extract(w) != template
  {
    assert e == Edge(e.from, template[i].id, None);
    assert e.from !in Sources(w.edges, template[i].id);
    assert Extract(w)[i] == TemplateOf(w.nodes[i], w.edges);
  }

  lemma SameKeySame(kept: seq<Link>, a: Link, b: Link)
    requires DistinctKeys(kept) && a in kept && b in kept && EdgeKey(a) == EdgeKey(b)
    ensures a == b
  {
    var i :| 0 <= i < |kept| && kept[i] == a;
    var j :| 0 <= j < |kept| && kept[j] == b;
    assert i == j;
  }

  /**
   * When the merged workflow validates, extracting it gives the template back exactly if no two of
   * its dependencies read the same as edge keys.
   */
  lemma ExtractAfterMerge(current: Definition, template: seq<TemplateNode>)
    requires WellFormed(template) && Accepts(Merged(current, template))
    ensures Extract(Merge(current, template)) == template <==> !KeysClash(AllDeclared(template))
  {
    var merged := Merged(current, template);
    if KeysClash(AllDeclared(template)) {
      DependencyLost(current, template);
    } else {
      forall i | 0 <= i < |template| ensures Extract(merged)[i] == template[i] {
        DependenciesReturn(current, template, i);
      }
    }
  }

  /** Such a template: "a" before "b||c" reads the same as "a||b" before "c". */
  function Clashing(t: TemplateNode): seq<TemplateNode> {
    [t.(id := "a", dependsOn := []), t.(id := "a||b", dependsOn := []), t.(id := "b||c", dependsOn := ["a"]),
     t.(id := "c", dependsOn := ["a||b"])]
  }

  lemma ClashingIds(t: TemplateNode)
    ensures TemplateIds(Clashing(t)) == ["a", "a||b", "b||c", "c"] && Distinct(TemplateIds(Clashing(t)))
  {
    var ids := TemplateIds(Clashing(t));
    assert ids[0] == "a" && ids[1] == "a||b" && ids[2] == "b||c" && ids[3] == "c";
  }

  lemma KeysCanClash(t: TemplateNode)
    ensures WellFormed(Clashing(t)) && KeysClash(AllDeclared(Clashing(t)))
  {
    ClashingIds(t);
    ClashFound(Clashing(t), Clashing(t)[2], Clashing(t)[3]);
  }

  lemma ClashFound(template: seq<TemplateNode>, t: TemplateNode, u: TemplateNode)
    requires t in template && t.id == "b||c" && t.dependsOn == ["a"] && "a" in TemplateIds(template)
    requires u in template && u.id == "c" && u.dependsOn == ["a||b"] && "a||b" in TemplateIds(template)
    ensures KeysClash(AllDeclared(template))
  {
    var ids := TemplateIds(template);
    var x, y := Edge("a", "b||c", None), Edge("a||b", "c", None);
    assert EdgeKey(x) == "a||b||c" == EdgeKey(y);
    assert Declares(t, x) && Declares(u, y);
    DeclaredMembers(template, ids, x);
    DeclaredMembers(template, ids, y);
  }

  // ---------------------------------------------------------------- merging what was extracted

  /** Every dependency edge joins two nodes. */
  ghost predicate DependenciesJoinNodes(w: Definition) {
    forall e :: e in w.edges && e.when.None? ==> e.from in NodeIds(w.nodes) && e.to in NodeIds(w.nodes)
  }

  lemma AcceptedFacts(w: Definition)
    requires Accepts(w)
    ensures Distinct(NodeIds(w.nodes)) && DistinctKeys(w.edges)
    ensures forall e :: e in w.edges ==> e.from in EntityIds(w) && e.to in EntityIds(w)
    ensures forall g, m :: g in w.groups && m in g.members ==> m in NodeIds(w.nodes)
  {
    NoNodesNoEdges(w);
  }

  lemma SameNode(w: Definition, i: nat)
    requires Distinct(NodeIds(w.nodes)) && i < |w.nodes|
    ensures MergedNode(w, TemplateOf(w.nodes[i], w.edges)) == w.nodes[i]
  {
    var id := w.nodes[i].id;
    var found := FindLast(w.nodes, (n: Node) => n.id == id);
    assert w.nodes[i] in w.nodes;
    var k :| 0 <= k < |w.nodes| && w.nodes[k] == found.value;
    assert NodeIds(w.nodes)[k] == NodeIds(w.nodes)[i];
  }

  lemma {:induction false} KeepAllGroups(groups: seq<Group>, ids: seq<Id>)
    requires forall g, m :: g in groups && m in g.members ==> m in ids
    ensures KeepGroups(groups, ids) == groups
  {
    if groups == [] {
    } else {
      assert groups[0] in groups;
      KeepAllGroups(groups[1..], ids);
    }
  }

  /** Which edges the extracted template declares: the dependency edges between nodes. */
  lemma DeclaredByExtract(w: Definition, e: Link)
    ensures e in Declared(Extract(w), NodeIds(w.nodes)) <==>
              e in w.edges && e.when.None? && e.from in NodeIds(w.nodes) && e.to in NodeIds(w.nodes)
  {
    var template, ids := Extract(w), NodeIds(w.nodes);
    DeclaredMembers(template, ids, e);
    if e in Declared(template, ids) {
      var t :| t in template && Declares(t, e);
      var i :| 0 <= i < |template| && template[i] == t;
      assert ids[i] == t.id && e == Edge(e.from, t.id, None);
    }
    if e in w.edges && e.when.None? && e.from in ids && e.to in ids {
      var i :| 0 <= i < |ids| && ids[i] == e.to;
      assert e == Edge(e.from, w.nodes[i].id, None);
      assert template[i] in template && Declares(template[i], e);
    }
  }

  /** Of edges that all come from a list with distinct keys none is dropped. */
  lemma KeepFirstOfDistinct(edges: seq<Link>, all: seq<Link>, e: Link)
    requires DistinctKeys(all) && (forall x :: x in edges ==> x in all)
    ensures e in KeepFirst(edges) <==> e in edges
  {
    if e in edges {
      var i :| 0 <= i < |edges| && edges[i] == e;
      EveryKeyKept(edges, |edges|, i);
      var kept := KeepFirst(edges);
      var x :| x in kept && EdgeKey(x) == EdgeKey(e);
      SameKeySame(all, x, e);
    }
  }

  lemma ConditionalStay(w: Definition, e: Link)
    requires Accepts(w)
    ensures e in Conditional(w.edges, NodeIds(w.nodes), GroupIds(w.groups)) <==> e in w.edges && e.when.Some?
  {
    AcceptedFacts(w);
    assert forall id :: id in EntityIds(w) ==> id in NodeIds(w.nodes) || id in GroupIds(w.groups);
  }

  /** The edges after merging a workflow's own template back. */
  lemma EdgesMergedBack(w: Definition, e: Link)
    requires Accepts(w)
    ensures e in Merged(w, Extract(w)).edges <==>
              e in w.edges && (e.when.None? ==> e.from in NodeIds(w.nodes) && e.to in NodeIds(w.nodes))
  {
    var ids := NodeIds(w.nodes);
    assert TemplateIds(Extract(w)) == ids;
    var declared, conditional := Declared(Extract(w), ids), Conditional(w.edges, ids, GroupIds(w.groups));
    forall x | x in declared + conditional ensures x in w.edges { DeclaredByExtract(w, x); }
    AcceptedFacts(w);
    KeepFirstOfDistinct(declared + conditional, w.edges, e);
    DeclaredByExtract(w, e);
    ConditionalStay(w, e);
  }

  lemma NodesMergedBack(w: Definition)
    requires Accepts(w)
    ensures Merged(w, Extract(w)).nodes == w.nodes && Merged(w, Extract(w)).groups == w.groups
  {
    AcceptedFacts(w);
    assert TemplateIds(Extract(w)) == NodeIds(w.nodes);
    KeepAllGroups(w.groups, NodeIds(w.nodes));
    var nodes := MergedNodes(w, Extract(w));
    forall i | 0 <= i < |w.nodes| ensures nodes[i] == w.nodes[i] { SameNode(w, i); }
  }

  /** The candidate keeps the set of edges exactly when no dependency edge touches a group. */
  lemma CandidateAfterExtract(w: Definition)
    requires Accepts(w)
    ensures Merged(w, Extract(w)).nodes == w.nodes && Merged(w, Extract(w)).groups == w.groups
    ensures ToSet(Merged(w, Extract(w)).edges) == ToSet(w.edges) <==> DependenciesJoinNodes(w)
  {
    NodesMergedBack(w);
    var edges := Merged(w, Extract(w)).edges;
    forall e ensures e in edges <==> e in w.edges && (e.when.None? ==> e.from in NodeIds(w.nodes) && e.to in NodeIds(w.nodes)) {
      EdgesMergedBack(w, e);
    }
    SameSetExactly(edges, w.edges, (e: Link) => e.when.None? ==> e.from in NodeIds(w.nodes) && e.to in NodeIds(w.nodes));
  }

  /**
   * Merging a valid workflow's own template back keeps its nodes and groups.  It keeps the set of edges exactly when
   * no dependency edge touches a group, or else the candidate without those edges does not validate, so that the
   * merge falls back to the workflow as it was.
   */
  lemma MergeAfterExtract(w: Definition)
    requires Accepts(w)
    ensures Merge(w, Extract(w)).nodes == w.nodes && Merge(w, Extract(w)).groups == w.groups
    ensures ToSet(Merge(w, Extract(w)).edges) == ToSet(w.edges) <==>
              DependenciesJoinNodes(w) || !Accepts(Merged(w, Extract(w)))
  {
    CandidateAfterExtract(w);
  }

  lemma SameSetExactly(a: seq<Link>, b: seq<Link>, p: Link -> bool)
    requires forall e :: e in a <==> e in b && p(e)
    ensures ToSet(a) == ToSet(b) <==> forall e :: e in b ==> p(e)
  {
    if ToSet(a) == ToSet(b) {
      forall e | e in b ensures p(e) { assert e in ToSet(b); }
    }
  }

  /** So a valid workflow whose dependency edges join nodes survives its own template. */
  lemma OwnTemplateChangesNothing(w: Definition)
    requires Accepts(w) && DependenciesJoinNodes(w)
    ensures var r := Merge(w, Extract(w));
            && r.nodes == w.nodes && r.groups == w.groups && ToSet(r.edges) == ToSet(w.edges)
            && r.scheduler == w.scheduler && r.plugins == w.plugins && r.output == w.output
  {
    CandidateAfterExtract(w);
  }
}
