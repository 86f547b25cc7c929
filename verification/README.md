# Pipeline engine: a verified model

This project models the pipeline engine's three cores and four self-contained algorithms beside them, and
proves their main promises for all inputs and all runs.

* **The scheduler.** `StateMachine`, `RunModel`, `Readiness` and `LaunchSafety` model the status table, the readiness
  pass and picking. `AnyDrain` is the drain of any workflow over any run: the loop is fixed, and what its tasks do to
  the run is arbitrary. It carries the bounds and, in `HaltingResults`, when the loop sees every halting result;
  `DrainLoop` is its loops as methods of an object. `Drain` is the drain of workflows without groups and routing nodes
  in full: between two awaits nothing interleaves, so each stretch is one step (launching, a node set running, a node
  taking the result of its agent run, an item taking it over with its eager promotion), and an agent run is an oracle
  verdict per node.
  `DrainTasks` and `DrainRefinement` show that it is a drain in the general sense; `ItemExecutor` is the executor's
  part. `Fragment`, `PlainRuns`, `DrainOutcome`, `DrainResults` and `StuckDrains` treat the plain fragment: one item
  key, no groups, no routing nodes, no route edges, an item for every source, no cycle, no sleeping, rejection, retry
  or stop during the drain; one drain or several after one another. `PlainWorkflows` shows that every accepted workflow
  without groups, routes and conditions lies in it, with the runs seeded for it, `SeveralKeys` what more item keys do,
  and `MissedHalts` under which settings drains of such workflows miss a halting result.
* **The inbound queue.** `InboundQueue` is the log and its snapshot, `QueueProcess` the process around it
  (dispatches, cancels, retries, drains, the chain of writes, crashes), `QueueRuntime` the same stretches as
  methods of an object; `QueueRecovery`, `QueueExclusion`, `QueueOrder`, `QueueBlocked` and
  `QueueAttended` hold the theorems.
* **Workflow graphs.** `Workflow`, `Digraph`, `BranchRules`, `WorkflowGraph`, `Acyclicity`, `Validate`, `Closure`, `RunState` and
  `Retry` cover branch scopes, validation with its cycle check, the closures and the resets.
* **Smaller algorithms.** `BatchController`, `JsonScanner`, `TemplateMapper` with `TemplateCases`, `RunLogReader`.
  `StraightWorkflows` is what validation accepts without branches, for the examples in `TemplateCases` and `MissedHalts`.

`Common`, `Numbers`, `Scheduling` and `Runs` hold shared definitions; `Runs` is induction along runs of a step relation.

## What the proofs found

* Retry and reject reset statuses without naming a command, so neither consults the retry_reset row of the status
  table: a reset of theirs raises exactly when a subject it touches is running or stopped
  (`StateMachine.ResetRaisesExactly`, `Retry.Store.RetryReset`).
* Putting an item to sleep names no command either, and the default permissions do not let an item with an outcome
  wait: every readable `sleepUntil` raises once the item has its status, and promotes nothing
  (`StateMachine.SleepRaises`, `ItemExecutor.Executor.FinishItem`). So no item is ever given a time to wake, and none
  is ever due in a drain of a run that had none (`ItemExecutor.NobodyEverDue`). A due item can only come with a run
  loaded from disk; then waking, which names no command, makes every readiness pass raise
  (`Readiness.DependencyState.WakeDueItems`).
* The table's header says that only a route backfill leads from blocked to running or an outcome. Group aggregation
  does so too (`StateMachine.KeyRestrictions`).
* The items of a node share its status, and an agent run can begin only while the node is queued or running
  (`ItemExecutor.BeginRaisesExactly`). Draining a seeded plain workflow therefore never raises exactly when there is one
  item key, or nothing is enabled (`SeveralKeys.RaisesExactly`); a raise there rejects the whole drain.
* In the plain fragment a drain can end by itself with an item still waiting, depending only on the order in which
  items are listed. It can happen exactly when a node that can be skipped is listed before such a node it depends on
  (`StuckDrains.StuckExactly`); with items in topological order it cannot.
* Several results can settle before the loop goes on, while it looks at one only. Some seeded run of an accepted plain
  workflow has a drain that lets a halting result leave the active set and ends without reporting a hard failure,
  exactly when two tasks can be active and one may be launched (`MissedHalts.MissesExactly`). Exactly with two slots, a
  limit of three and no manual tick, one launches more tasks in the very turn that drops the result
  (`MissedHalts.LaunchesPastExactly`). That fewer slots or launches rule both out holds of every workflow
  (`HaltingResults.MissNeeds`, `HaltingResults.LaunchesPastNeeds`).
* An inbound job can be left running with nobody attending to it, exactly if one of four things can happen: its execution
  throws; looking its link up after a failed execution throws, as with a link file of the right version that has no list;
  the write of its end fails before it is in the log; or the write of its start fails after that, in a compaction
  (`QueueAttended.BlocksExactly`). Each of them alone is enough, and such a job blocks its target until the process
  starts again (`QueueBlocked.UnattendedBlocks`).
* Ids may contain the separator `|` of edge keys. Extracting a merged template gives the template back exactly when
  no two of its dependencies share a key (`TemplateMapper.ExtractAfterMerge`); `TemplateCases.ClashingIsLost` is a
  template that merges into an empty workflow and loses a dependency.
* A workflow's own template drops the dependency edges at groups, unless the workflow without them does not validate:
  then the merge falls back (`TemplateMapper.MergeAfterExtract`, `TemplateCases.MergeCanFallBack`).
* The batch controller's final count of batches is the total exactly when `startIndex % batchSize` is at most
  `(total - 1) % batchSize`, and one less otherwise (`BatchController.BatchArithmetic`).

## Readings

* Times are integers and ISO texts are compared as such; identifiers are compared as strings. Ties in creation time
  are ordered by code units rather than by locale.
* A node's `parallelGroupId` is already trimmed. A template node is its own type; `type` of a node is `kind` here.
* The snapshot of jobs is a sequence without repeated ids: setting a key keeps its place, deleting closes the gap.
* A job id determines its target pipeline, because it names link and output and an output is dispatched once: `targetOf`
  is that map. A link may be removed and created again with another target.
* The default arguments of the readiness pass are explicit: the default item keys and the present time.
* A log line is one event, a rename is atomic, and a failed initialization ends the process like a crash.
* Characters of a scanned text are UTF-16 units; the grammar of JSON texts in `JsonScanner` is wider than that of
  RFC 8259 (section 7 for strings): every JSON object text has the form `Write(v)` for a good object value `v`.

## Model

| member | source | states |
|---|---|---|
| StateMachine.KeyRestrictions | src/pipeline/state-machine.ts:19-22 | exactly which commands lead from failed, rejected and blocked to success or running, what the execute path allows, and that nothing is set stopped; the second differs from the comment |
| StateMachine.ResetRaisesExactly | src/pipeline/state-machine.ts:122-129 | a reset without a command raises if and only if the subject is running or stopped, though the retry_reset row allows those resets |
| StateMachine.SleepRaises | src/pipeline/execution/route-item-manager.ts:242-250 | putting an item that has an outcome or is stopped to sleep raises, though the sleep row allows it for outcomes |
| Digraph.IndexEdges | src/pipeline/workflow-graph.ts:41-49 | the two lookup tables hold, for every id, exactly its incoming and its outgoing edges in edge order |
| BranchRules.ComputeNodeScopes | src/pipeline/workflow/branch-rules.ts:16-57 | the loop terminates and computes the scope map of the specification |
| BranchRules.NeverOverwritten | src/pipeline/workflow/branch-rules.ts:31-53 | a scope once set, explicitly or by a route edge, is never changed |
| BranchRules.ScopedExactly | src/pipeline/workflow/branch-rules.ts:39-54 | an entity is scoped exactly if it is seeded or an unconditional path leads to it from a seeded one |
| BranchRules.UnscopedSeedsInvisible | src/pipeline/workflow-graph.ts:59-60 | listing further entities without explicit scope changes no scope |
| WorkflowGraph.SameCrossEdges | src/pipeline/workflow-graph.ts:152-153 | graph and validation agree on every edge whether it crosses branches, although they seed differently |
| Acyclicity.CountDegrees | src/pipeline/workflow/validate.ts:29-67 | every entity's degree counts its incoming edges with repetitions, and its targets are listed with repetitions |
| Acyclicity.CountReleased | src/pipeline/workflow/validate.ts:280-301 | the release loop visits all entities if and only if the edges form no cycle |
| Acyclicity.OrderedIsAcyclic | src/pipeline/workflow/validate.ts:280-301 | an order with every source before its targets rules out cycles |
| Acyclicity.ListInOrder | src/pipeline/workflow/validate.ts:280-301 | without a cycle the entities can be listed with sources first |
| Validate.CheckEdges | src/pipeline/workflow/validate.ts:40-67 | accepts exactly the edge lists with known endpoints, no self-loop and no two edges of one key |
| Validate.DeriveValidationScopes | src/pipeline/workflow/validate.ts:90-104 | the scopes against which validation checks edges |
| Validate.ValidateWorkflowGraph | src/pipeline/workflow/validate.ts:7-304 | the result is that of the first failing check in the source's order, the last being that the edges form no cycle |
| Validate.AcceptedNeverCross | src/pipeline/workflow/validate.ts:106-117 | no edge of an accepted workflow crosses branches in the graph built from it |
| Validate.AcceptedHasOrder | src/pipeline/workflow/validate.ts:280-303 | nodes and groups of an accepted workflow have an order with the source of every edge before its target |
| Closure.Explore | src/pipeline/execution/run-state-helpers.ts:139-169 | breadth-first search terminates with exactly the values that a trail of live values reaches |
| Closure.ReachedIsLeast | src/pipeline/execution/run-state-helpers.ts:139-169 | the reached values are the least set that holds the starts and is closed under successors |
| RunState.CollectDownstreamSubgraph | src/pipeline/execution/run-state-helpers.ts:139-169 | the nodes and the groups affected by the root, each set exact |
| RunState.CollectReachableEntities | src/pipeline/execution/run-state-helpers.ts:171-190 | exactly what edges lead to from the starts |
| RunState.CollectAncestorEntities | src/pipeline/execution/run-state-helpers.ts:192-211 | exactly what edges lead to the starts from |
| RunState.AffectedIsLeast | src/pipeline/execution/run-state-helpers.ts:144-168 | the affected set holds the root, is closed under members, owner groups and edges that do not cross, and is the least such set |
| RunState.ReachableIsConverseOfAncestor | src/pipeline/execution/run-state-helpers.ts:171-211 | y is reachable from x if and only if x is an ancestor of y |
| RunModel.AggregateNodeStatus | src/pipeline/runtime-model.ts:127-136 | the loop yields the first status of the highest priority |
| Retry.Store.ResetItems | src/pipeline/scheduler-service.ts:96-98 | raises exactly if a selected item is running or stopped, and otherwise resets the selected items and no others |
| Retry.Store.ResetNodes | src/pipeline/execution/run-state-helpers.ts:213-252 | the same for nodes, each judged against the nodes as they stand at its turn |
| Retry.Store.ResetGroups | src/pipeline/scheduler-service.ts:103-107 | the same for groups |
| Retry.Store.ResetGroupItems | src/pipeline/scheduler-service.ts:108-116 | the same for group items |
| Retry.Store.RetryReset | src/pipeline/scheduler-service.ts:81-116 | the four results of a retry before its readiness pass, when each happens, and the whole new run |
| Retry.Store.ResetAffectedDownstreamNodes | src/pipeline/execution/service.ts:97-136 | the reset of a rejection: exact affected sets, when it raises, and the whole new run, sparing the skipped nodes |
| Retry.RetryLeavesNothingStale | src/pipeline/scheduler-service.ts:81-116 | after a retry without an item key nothing downstream keeps an outcome, and nothing else has changed |
| Readiness.Tally | src/pipeline/scheduler/dependency-state.ts:43-64 | the two counters decide queued, skipped or waiting exactly as the quantified policy says |
| Readiness.ResolveDependencyOutcome | src/pipeline/scheduler/dependency-state.ts:38-65 | the counting loop yields the outcome of the policy over all dependencies |
| Readiness.PassTurns | src/pipeline/scheduler/dependency-state.ts:91-119 | a completed pass treats every item against the items as they stand at its turn |
| Readiness.DependencyState.WakeDueItems | src/pipeline/scheduler/dependency-state.ts:76-85 | raises if and only if some item is due, as one can be only in a run loaded from disk |
| Readiness.DependencyState.MarkReadyItems | src/pipeline/scheduler/dependency-state.ts:87-121 | the in-place loop is the item pass of the specification, raising in the same cases |
| Readiness.DependencyState.MarkReadyGroups | src/pipeline/scheduler/dependency-state.ts:123-168 | the same for group items and groups |
| Readiness.DependencyState.PickNextRunnableBatch | src/pipeline/scheduler-service.ts:55-73 | the first candidates up to the limit: queued group items, then runnable items, in run order |
| LaunchSafety.SatisfiedStays | src/pipeline/execution/dependency-check.ts:18-35 | a dependency once satisfied stays so while successes are kept |
| LaunchSafety.LaunchSafe | src/pipeline/scheduler-service.ts:206-219 | for any workflow and item order: whatever a completed pass leaves to be picked has no dependency, or enough satisfied ones at that moment |
| ItemExecutor.Executor.LaunchItem | src/pipeline/execution/node-item-executor.ts:42-58 | the launch fails exactly if the attempts are used up, and a launched item never exceeds what its node allows |
| ItemExecutor.AttemptsBounded | src/pipeline/execution/node-item-executor.ts:42-58 | in every drain of a seeded run no item is ever attempted more often than its node allows |
| ItemExecutor.NobodyEverDue | src/pipeline/execution/route-item-manager.ts:242-250 | in every drain of a seeded run without times to wake no item is ever due |
| DrainLoop.SchedulerLoop.LaunchBatch | src/pipeline/scheduler-service.ts:216-219 | the loop launches items and group items in order, and each fills a slot and counts |
| DrainLoop.SchedulerLoop.FillSlots | src/pipeline/scheduler-service.ts:206-225 | the inner loop, for items and group items, is the specification's filling of free slots, and terminates |
| DrainLoop.SchedulerLoop.GoRound | src/pipeline/scheduler-service.ts:194-227 | one stretch of the outer loop up to the next await or the end |
| DrainLoop.SchedulerLoop.AfterRace | src/pipeline/scheduler-service.ts:229-244 | a hard failure is set exactly by a halting result looked at, and after a halt, an abort or a stop nothing more is launched |
| ItemExecutor.Executor.PromoteDownstream | src/pipeline/execution/route-item-manager.ts:252-271 | the loop over the edges, groups included, promotes as the specification does |
| ItemExecutor.PromotedExactly | src/pipeline/execution/route-item-manager.ts:252-271 | promotion queues exactly the first item of each target node and key that may be queued, and changes no other item |
| ItemExecutor.Executor.FinishItem | src/pipeline/execution/node-item-executor.ts:60-83 | taking over a result raises exactly from the wrong status or with a time to sleep until, the run in all three cases, and no item gets a time to wake it |
| ItemExecutor.Executor.EndNode | src/pipeline/execution/node-runner.ts:93-226 | it raises exactly if the node is there and has ended otherwise; a success is taken as one exactly if the node is running or has succeeded, and else becomes a failure; the node has the status of what is taken |
| ItemExecutor.BeginRaisesExactly | src/pipeline/execution/node-runner.ts:175 | an agent run can begin exactly at a node that is queued or running |
| ItemExecutor.EndRaisesExactly | src/pipeline/execution/node-runner.ts:93-220 | exactly when the end of an agent run raises, and when a raise is turned into a failure |
| AnyDrain.DrainIsBounded | src/pipeline/scheduler-service.ts:173-245 | every drain of any workflow over any run has at most maxConcurrency active tasks and maxGlobalIterations + maxConcurrency - 1 launches, and a bounded number of settled tasks and turns |
| AnyDrain.NeverStalls | src/pipeline/scheduler-service.ts:227-244 | a drain that has not ended can go on as long as its tasks settle |
| AnyDrain.HardFailedExactly | src/pipeline/scheduler-service.ts:229-239 | a drain reports a hard failure exactly if some turn has looked at a halting result |
| HaltingResults.MissNeeds | src/pipeline/scheduler-service.ts:229-239 | for any workflow: a drain that drops a halting result and reports no hard failure has two slots and a positive limit |
| HaltingResults.LaunchesPastNeeds | src/pipeline/scheduler-service.ts:206-239 | for any workflow: launching in the turn that drops it takes two slots, a limit of three and no manual tick |
| MissedHalts.MissesExactly | src/pipeline/scheduler-service.ts:229-250 | for given settings, a drain of some seeded accepted plain workflow drops a halting result and reports no hard failure, to its very end, if and only if there are two slots and a positive limit |
| MissedHalts.LaunchesPastExactly | src/pipeline/scheduler-service.ts:206-239 | for given settings, such a drain launches more in the step that drops it, if and only if there are two slots, a limit of three and no manual tick |
| DrainRefinement.DrainRefines | src/pipeline/scheduler-service.ts:173-245 | the drain with named tasks and nodes is, step by step, a drain in the general sense |
| DrainRefinement.TasksBounded | src/pipeline/scheduler-service.ts:173-245 | so its tasks are bounded alike |
| DrainResults.NoTransitionRaises | src/pipeline/state-machine.ts:115-131 | in the fragment no step of one drain or several makes a transition of an item or a node raise, nor would raise and be caught |
| DrainResults.OutcomesLast | src/pipeline/scheduler/dependency-state.ts:91-119 | an enabled item once skipped, succeeded or failed keeps that status, through this drain and those after it |
| DrainResults.DrainEvaluates | src/pipeline/scheduler-service.ts:194-245 | drains of a run, the last of which ends of itself, have run exactly the nodes that a recursive evaluation of the graph runs, with its results |
| DrainResults.ScheduleIndependent | src/pipeline/scheduler-service.ts:194-245 | two such runs agree on every node, whatever their interleavings, limits, ticks and item orders |
| DrainResults.LegReady | src/pipeline/scheduler-service.ts:151-251 | every drain of a chain starts at a run that is ready for one |
| Fragment.JudgementStays | src/pipeline/execution/dependency-check.ts:18-55 | a source once satisfied or impossible stays so, and with it the decision taken from it |
| Fragment.PassSafe | src/pipeline/scheduler/dependency-state.ts:91-119 | a pass over the fragment never raises, keeps the invariant and undoes no outcome |
| Fragment.QuietIsEvaluated | src/pipeline/scheduler/dependency-state.ts:38-65 | a pass that leaves nothing queued or running leaves the results of the recursive evaluation |
| Fragment.NoneStuck | src/pipeline/scheduler/dependency-state.ts:87-121 | without an inversion in the item order such a pass leaves every enabled node with an outcome |
| PlainRuns.PassIsIdempotent | src/pipeline/scheduler/dependency-state.ts:87-121 | with items in topological order a second readiness pass changes nothing in the run |
| PlainRuns.PassByPosition | src/pipeline/scheduler/dependency-state.ts:87-121 | the pass over a run of the fragment is the pass over positions, and raises exactly if that one does |
| StuckDrains.StuckExactly | src/pipeline/scheduler/dependency-state.ts:87-121 | drains of a seeded run, the last of which ends of itself, always give all enabled items an outcome if and only if no node that can be skipped is listed before such a node it depends on |
| StuckDrains.TopologicalOrderNeverSticks | src/pipeline/scheduler-service.ts:206-250 | with items in topological order none is left without an outcome |
| StuckDrains.GoodOrderSettles | src/pipeline/scheduler-service.ts:206-250 | with a good order every item, enabled or not, ends as success, failed or skipped |
| StuckDrains.FinalStatusDecided | src/pipeline/runtime-model.ts:138-213 | with a good order and an item for every node the final run status is success or failed, never running |
| PlainWorkflows.AcceptedIsRanked | src/pipeline/workflow/validate.ts:280-303 | an accepted workflow ranks the source of every edge below its target |
| PlainWorkflows.AcceptedRunIsFresh | src/pipeline/execution/run-state-helpers.ts:57-83 | seeding a run of an accepted plain workflow gives one item per node, in node order, none of them started |
| PlainWorkflows.AcceptedWorkflowsDrain | src/pipeline/scheduler-service.ts:151-251 | from validation to the end: draining a seeded run of any accepted plain workflow, once or several times, never raises for items or nodes, and if the last drain ends of itself the workflow has been evaluated |
| PlainWorkflows.AcceptedWorkflowsStick | src/pipeline/scheduler/dependency-state.ts:87-121 | such a workflow can leave a node waiting exactly when its node list has the bad order |
| SeveralKeys.RaisesExactly | src/pipeline/execution/node-runner.ts:152-220 | no drain of a seeded accepted plain workflow raises if and only if there is one item key or no node is enabled |
| InboundQueue.QueueStore.PruneCompletedJobs | src/pipeline/dispatch/pipeline-inbound-queue.ts:10-23 | the collecting, sorting and deleting loops compute the pruned snapshot |
| InboundQueue.PruneCount | src/pipeline/dispatch/pipeline-inbound-queue.ts:17-22 | pruning keeps all finished jobs up to the limit of 500, and 500 of more |
| InboundQueue.PruneDropsEarliest | src/pipeline/dispatch/pipeline-inbound-queue.ts:18-22 | only finished jobs are dropped, and each finished no later than every finished job kept, ties by map order |
| InboundQueue.PruneIdle | src/pipeline/dispatch/pipeline-inbound-queue.ts:17 | within the limit nothing is dropped |
| InboundQueue.QueueStore.ApplyEvent | src/pipeline/dispatch/pipeline-inbound-queue.ts:74-147 | the in-place update is the event applied to the snapshot |
| InboundQueue.QueueStore.Replay | src/pipeline/dispatch/pipeline-inbound-queue.ts:42-72 | the snapshot is the folded log with running jobs recovered |
| InboundQueue.QueueStore.CompactLines | src/pipeline/dispatch/pipeline-inbound-queue.ts:167-175 | reading the compacted lines back gives the snapshot |
| InboundQueue.CompactionPreserves | src/pipeline/dispatch/pipeline-inbound-queue.ts:167-178 | compaction keeps the meaning of the log, order included |
| InboundQueue.JobsOfSorted | src/pipeline/dispatch/pipeline-inbound-queue.ts:180-196 | the jobs of a target and status with their repetitions, by creation time and then by id |
| InboundQueue.QueueStore.CancelJob | src/pipeline/dispatch/pipeline-inbound-queue.ts:220-226 | an event is written exactly if a job with the id is pending, the job is reported missing exactly if there is none, and the event cancels it |
| InboundQueue.QueueStore.RetryJob | src/pipeline/dispatch/pipeline-inbound-queue.ts:228-234 | the same for a job that failed or was canceled, which becomes pending |
| QueueProcess.DrainStartsExactly | src/pipeline/dispatch/pipeline-queue-drainer.ts:25-42 | a drain starts a job exactly if the pipeline is known and idle, none of its jobs runs and one is pending, and then the one created first |
| QueueAttended.HistoryTended | src/pipeline/dispatch/pipeline-queue-drainer.ts:25-60 | along every history without the four faults, crashes included, every running job is held by the drain of its target |
| QueueAttended.BlocksExactly | src/pipeline/dispatch/pipeline-queue-drainer.ts:38-60 | some history with faults of given kinds leaves a running job that nobody attends to, if and only if there is a kind at all |
| QueueBlocked.UnattendedBlocks | src/pipeline/dispatch/pipeline-queue-drainer.ts:34-36 | such a job runs for ever, and no job of its target starts, as long as the process does not crash |
| QueueRuntime.QueueProcessor.AdvanceHead | src/pipeline/dispatch/pipeline-inbound-queue.ts:149-218 | the stretches of a write: persist, apply, write the compacted file, rename |
| QueueRecovery.CrashRecovers | src/pipeline/dispatch/pipeline-inbound-queue.ts:42-72 | at every moment of every history, a crash and restart give the snapshot, or it with the one event that was written and not applied, with running jobs pending again |
| QueueRecovery.HistoryConsistent | src/pipeline/dispatch/pipeline-inbound-queue.ts:209-218 | at every moment, inside compaction too, folding the log gives the snapshot in the same order, or it with the event being written; while a start writes the log back, the snapshot is the pruned and recovered fold |
| QueueRecovery.FinishedWithinLimit | src/pipeline/dispatch/pipeline-inbound-queue.ts:186-192 | once the log is read there are never more than 500 finished jobs |
| QueueRecovery.AppliedWithinLimit | src/pipeline/dispatch/pipeline-link-dispatcher.ts:63-79 | with jobs created as pending no event breaks the limit |
| QueueExclusion.AtMostOneRunning | src/pipeline/dispatch/pipeline-queue-drainer.ts:25-83 | in every history no two jobs of one target are running together |
| QueueOrder.StartsInCreationOrder | src/pipeline/dispatch/pipeline-queue-drainer.ts:28-36 | with a clock that never goes back and no retries, jobs of one target start in the order of their creation, across crashes |
| JsonScanner.FindClose | src/pipeline/structured-output/parser.ts:32-63 | the inner loop finds the end of the balanced text, if there is one |
| JsonScanner.ExtractBalancedJsonObjectCandidates | src/pipeline/structured-output/parser.ts:27-71 | the candidates are the balanced texts of all braces, each once, in order |
| JsonScanner.ValuePasses | src/pipeline/structured-output/parser.ts:36-51 | no JSON value inside an object makes the scanner end early or late |
| JsonScanner.ObjectIsFound | src/pipeline/structured-output/parser.ts:27-71 | a JSON object between any two texts is extracted exactly from its own brace and is among the candidates |
| JsonScanner.FirstCandidate | src/pipeline/structured-output/parser.ts:27-71 | with no brace before it, it is the first candidate |
| BatchController.ClampBatchSize | src/pipeline/item-batch-controller.ts:46-49 | 10 without a finite number, the bounds 1 and 200 outside of them, and the whole part in between |
| BatchController.ClampStartIndex | src/pipeline/item-batch-controller.ts:51-54 | 0 without a finite number, the bounds 0 and the total outside of them, and the whole part in between |
| BatchController.TurnConserves | src/pipeline/item-batch-controller.ts:107-127 | a turn of a loop makes the next call exactly if its token is current, items are left and no stop is wanted, and batch and rest make up the queue |
| BatchController.Controller.StartRun | src/pipeline/item-batch-controller.ts:198-236 | refused exactly while running or without items; otherwise one new loop awaits the first batch from the start index, or the run is over at once |
| BatchController.Controller.StopRun | src/pipeline/item-batch-controller.ts:238-248 | after it no loop makes another call, however its batch ends |
| BatchController.Controller.CancelRun | src/pipeline/item-batch-controller.ts:250-266 | after it no loop holds the token, so whatever ends only makes its loop disappear |
| BatchController.BatchEndsExactly | src/pipeline/item-batch-controller.ts:129-184 | when a batch ends: exactly when the counts grow, when another call follows, and when the run goes on |
| BatchController.RunningMeansOneLoop | src/pipeline/item-batch-controller.ts:107-266 | in every history the status is running exactly while one unfinished loop holds the current token |
| BatchController.StaleIsInert | src/pipeline/item-batch-controller.ts:138-154 | a loop with an old token changes nothing but its own disappearance |
| BatchController.StaleNeverCalls | src/pipeline/item-batch-controller.ts:107-109 | a loop whose token is old never has another batch executed |
| BatchController.StopHalts | src/pipeline/item-batch-controller.ts:110-117 | after a stop no further batch begins before the next start |
| BatchController.HistoryProgress | src/pipeline/item-batch-controller.ts:119-164 | at every moment the batches begun and the queue make up the items from the start index, and all counts agree |
| BatchController.CompletedIsWorkedOff | src/pipeline/item-batch-controller.ts:186-195 | a completed run has executed all items from the start index in full consecutive batches but the last, with the final figures |
| BatchController.LastBatchIsWorkedOff | src/pipeline/item-batch-controller.ts:156-195 | so has a run whose last batch ends while others failed softly |
| BatchController.BatchArithmetic | src/pipeline/item-batch-controller.ts:206-210 | when batches skipped and batches executed add up to the total number of batches, and to one less otherwise |
| TemplateMapper.WorkflowToTemplateNodes | src/pipeline/workflow/template-mapper.ts:12-31 | the loops compute the extracted template |
| TemplateMapper.MergeTemplateNodesIntoWorkflow | src/pipeline/workflow/template-mapper.ts:35-121 | the loops compute the merge, which falls back to the current workflow when the result does not validate |
| TemplateMapper.ExtractAfterMerge | src/pipeline/workflow/template-mapper.ts:80-121 | when the merged workflow validates, extracting gives the template back if and only if no two of its dependencies share an edge key |
| TemplateCases.ClashingIsLost | src/pipeline/workflow/template-mapper.ts:101 | a well-formed template that merges into an empty workflow and does not come back |
| TemplateMapper.MergeAfterExtract | src/pipeline/workflow/template-mapper.ts:35-121 | merging a valid workflow's own template keeps nodes and groups, and the set of edges if and only if no dependency edge touches a group or the candidate without them does not validate |
| TemplateCases.MergeCanFallBack | src/pipeline/workflow/template-mapper.ts:110-121 | a valid workflow of the second kind |
| TemplateMapper.OwnTemplateChangesNothing | src/pipeline/workflow/template-mapper.ts:35-121 | such a workflow survives its own template |
| RunLogReader.NormalizeLimit | src/logs/run-log-reader.ts:11-16 | 300 without a finite number, the bounds 1 and 300 outside of them, and the whole part in between |
| RunLogReader.CountMatches | src/logs/run-log-reader.ts:105-112 | the first pass counts the matching entries and the unreadable lines |
| RunLogReader.ScanWindow | src/logs/run-log-reader.ts:116-125 | the second pass collects the matching entries whose place lies in the window |
| RunLogReader.ReadRunLogPage | src/logs/run-log-reader.ts:90-140 | the two-pass page is filter, order, slice, with its total, next offset and error count |
| RunLogReader.PagesPartition | src/logs/run-log-reader.ts:90-140 | asking a query and then following the next offsets ends, and yields every matching entry from the offset on exactly once, in the chosen order |

## Left out

- What executing group items and route nodes does to a run, rejection, and user stops: `AnyDrain` allows any effect there, and `Drain` covers node items of workflows without groups and routing nodes; the readiness pass, picking and launch safety cover groups and routes.
- Envelopes that ask to sleep are treated where an item takes over its result (`ItemExecutor.Executor.FinishItem`), where they raise; `Drain` has no such verdict, and `AnyDrain` counts it among the tasks that raise.
- A drain that starts while tasks of an earlier one, ended at its limit, are still under way: the chains of `DrainResults` wait for them.
- ItemExecutor.Executor.FinishItem: has no rejected and no stopped result, because a rejection resets nodes through its own handler and a stop is left out.
- Backoff before a repeated attempt is treated as instantaneous, so an item is never picked a second time while it waits for its backoff.
- Derived route item keys and their backfill.
- QueueExclusion.AtMostOneRunning: speaks of the job statuses; that a cancelled job never runs is not claimed, because a cancel checks the snapshot before its event is applied.
- The dispatcher's contract check and its limit of pending jobs: they only suppress dispatches, and the machine allows any dispatch of a new job.
- What a failed job does with `onJobFailed`: it decides only whether the drainer asks for another drain, and requests may come at any time here.
- Torn or malformed log lines, file-system details, and the payload of jobs.
- RunLogReader.ReadRunLogPage: takes lines already classified as blank, broken or readable; JSON parsing and case folding are not modelled.
- The other functions of the structured-output parser, which parse the candidates.
- Timestamps, run ids, timeline messages, broadcasts, and all I/O.
- Acyclicity through group membership: the cycle check does not follow it, and neither does the model's theorem.
