/** The workflow definition: nodes, edges and parallel groups. */
module Workflow {
  import opened Common
  import opened Digraph

  type Id = string

  type Link = Edge<Id>

  datatype Executor = Executor(agentId: string, role: string, fallbackAgentId: Option<string>, sessionId: Option<string>)

  datatype OutputSpec = OutputSpec(kind: string, schemaVersion: int)

  datatype Lane = MainLane | BranchLane

  datatype RetryPolicy = RetryPolicy(maxAttempts: int, backoffMs: int)

  /** `parallelGroupId` holds the trimmed text; `routeAllowed` is None without a route policy. */
  datatype Node = Node(
    id: Id,
    name: string,
    kind: string,
    enabled: bool,
    isMainline: bool,
    lane: Lane,
    parallelGroupId: Option<Id>,
    executor: Executor,
    inputMode: string,
    outputMode: string,
    dependencyPolicy: Option<string>,
    routeAllowed: Option<seq<string>>,
    retryPolicy: RetryPolicy,
    outputSpec: OutputSpec,
    instruction: string,
    allowReject: bool,
    maxRejectCount: int,
    branchScopeId: Option<string>)

  datatype Group = Group(id: Id, members: seq<Id>, joinPolicy: string)

  datatype Scheduler = Scheduler(enabled: bool, auto: bool, maxConcurrency: int, maxGlobalIterations: int)

  datatype Definition = Definition(
    scheduler: Scheduler,
    plugins: seq<string>,
    output: Option<string>,
    nodes: seq<Node>,
    edges: seq<Link>,
    groups: seq<Group>)

  /** A policy other than "all" marks a merge node, whose branch scope is erased. */
  predicate IsMerge(node: Node) {
    node.dependencyPolicy.Some? && node.dependencyPolicy.value != "" && node.dependencyPolicy.value != "all"
  }

  function NodeIds(nodes: seq<Node>): (r: seq<Id>)
    ensures |r| == |nodes| && forall i :: 0 <= i < |nodes| ==> r[i] == nodes[i].id
  {
    seq(|nodes|, i requires 0 <= i < |nodes| => nodes[i].id)
  }

  function GroupIds(groups: seq<Group>): (r: seq<Id>)
    ensures |r| == |groups| && forall i :: 0 <= i < |groups| ==> r[i] == groups[i].id
  {
    seq(|groups|, i requires 0 <= i < |groups| => groups[i].id)
  }
}
