# Daisy-DAG execution engine: a Dafny model

This project models the parts of the Daisy-DAG backend that decide what a workflow run means, and proves
what they promise for every graph, every plugin behaviour, every completion order and every history.

The core is the workflow engine and its durable resume protocol:

* `Parser`, `Dags`: which graphs are accepted. Kahn's loop over a multigraph is sound and complete, and
  the maps the scheduler builds count edges with multiplicity.
* `NodeRun`: one node. The synchronous part up to the plugin call (`Prefix`), the retries and the batch
  fan-out (`Attempts`, `BatchResults`, `Complete`), the context variables it binds (`Bindings`). What
  plugins, expressions and the registry answer is a `World` of arbitrary functions; an answer may depend on
  everything the node could see.
* `Semantics`, `JobResults`, `Reference`: what a job means, independently of any scheduler. A node's outcome
  is explained by its parents; statuses satisfy a recursive equation over the graph; a run is confluent;
  and a sequential evaluation in topological order is its reference.
* `Executor`: the scheduler. A class `Execution` with the engine's own mutable fields (`remaining`,
  `nodeResults`, `ctx`, `aborted`, `ready`, the plugin calls in flight) starts a layer, lets its plugin calls
  complete in an arbitrary order, propagates, and reconciles. Each method is tied to a pure step on `Mem` or
  `Queue`, and the steps keep the invariants that make the job an instance of `JobResults`.
* `NodeStates`, `DurableJob`, `ExecutionStore`, `Protocol`: the `node_states` rows, the handlers `/resume`,
  `/skip` and `/respond`, the reaper and the worker, which decides for every job whether it is a single run or
  a batch. `Protocol` is a transition system in which writes are issued and land separately, a crash loses
  writes at any moment, and safety holds over every history.
* `Recovery`: what a `/resume` or a `/skip` brings about in the job it queues.
* `PauseResume`, `Theorems`, `WorkerResume`, `EndToEnd`: pausing, answering and resuming any number of times
  equals one uninterrupted run; and what that says for real jobs, real rows and the worker's initial data.
* `Departures`: concrete workflows on which the engine does not do what one would expect.

Four smaller cores: `Batch` (the worker pool, step by step), `Chunk` with `Text` (the recursive splitter),
`Tokens` (refresh-token rotation), `History` and `Retention` (conversation history, pruning and draining).

`Common` holds shared vocabulary. Numbers are unbounded where the source only counts; strings are
sequences of characters, one per UTF-16 code unit.

Where the code departs from what it says of itself, the model follows the code:

* An `executeIf` evaluation error records the node as failed and never aborts, whatever `onError` says,
  although `backend/src/engine/executor.js:541` describes every terminating failure as aborting.
  `Departures.FailsQuietly` is a failing job and `Theorems.JobAbortsExactlyWhen` the exact condition.
* A success with a null output is not replayed into the context on resume. `Departures.NullOutputIsLost` is a
  job that reads an old value again, and `WorkerResume.JobReplaysExactly` the exact condition.
* A job that resumes a single run can be a batch: without inputs the worker looks for `items` in the persisted
  context, where the first job may have bound an array. A batch ignores the node rows; with at least one item
  and no more than the iteration cap it invokes successful nodes again. `Departures.ResumedAsBatch` and
  `Departures.BatchFetchesAgain` are such an execution, `Protocol.ReinvokedIff` and
  `ExecutionStore.NextJobIsBatchIff` the exact conditions, and `ExecutionStore.StaysSingle` a static one that
  rules it out. Where the array is empty the job runs nothing and the execution ends "success" with a row
  still pending: `Departures.EmptyBatchSucceeds`.
* The retention counters understate what was deleted when the executions policy throws between its two
  statements. `Retention.FaultHidesRows` is a failing drain and `Retention.CountsExactIff` the exact condition.
* With `keepTurns` 0, which the configuration admits, turn numbers are used again:
  `History.KeepingNoneReuses`. `History.NumbersUsedOnceIff` is the exact condition.
* History rows are unique per thread, not per workspace, so an append can be refused because of another
  workspace's row: `History.SecondWorkspaceRefused`. `History.AppendRefusedIff` is the exact condition, and
  `History.RefusedForGood` says that only a clear or a pruning ends the refusal.
  Where two workspaces write to one thread a pruning can also let an append through, so it can be seen:
  `History.PruningNeverSeenIff` is the exact condition.

Hypotheses that recur: `DisjointWrites` (no context variable has two writing nodes) and `Local` (what a node
does depends only on what its ancestors provide); without them the code's result depends on which plugin
call of a layer returns first. Rows are closed (`RowsClosed`) when every row taken over has all its parents
taken over in a terminal state; what a job leaves is (`JobResults.RowsStayClosed`). `WellFormed` is unique names
and known endpoints, which `parseDag` checks.

## Model

| member | source | states |
|---|---|---|
| Parser.CheckNames | backend/src/dsl/parser.js:58-65 | finds a duplicate exactly when names are not unique, and names one that occurs twice |
| Parser.CheckEdges | backend/src/dsl/parser.js:67-79 | accepts exactly when every endpoint is declared and no edge is a self-loop; otherwise reports the first bad edge's own error |
| Parser.KahnVisit | backend/src/dsl/parser.js:117-133 | the queue visits each node at most once, only after all its parents, and what is left over is stuck: every such node has an unvisited parent |
| Parser.StuckHasCycle | backend/src/dsl/parser.js:134-136 | a left-over node proves a directed cycle (a walk backwards through left-over nodes must repeat) |
| Parser.CycleCheck | backend/src/dsl/parser.js:117-136 | sound and complete: passes if and only if the edge multigraph is acyclic, and then the visit order is a topological order |
| Parser.ParseDag | backend/src/dsl/parser.js:58-138 | the whole acceptance: which graphs are accepted, and "contains a cycle" if and only if all earlier checks pass and a cycle exists |
| Dags.TopologicalIsAcyclic | backend/src/dsl/parser.js:117-136 | a graph with a topological order has no node that is its own ancestor |
| Dags.BuildDag | backend/src/engine/scheduler.js:6-21 | successor lists keep edge multiplicity and order, indegrees count edges with multiplicity, names map to their definitions |
| Dags.ReleaseOne | backend/src/engine/executor.js:512-523 | releasing a node lowers each counter by exactly the number of edges from it |
| Dags.CounterStep | backend/src/engine/executor.js:518-520 | in the middle of a release, the counter about to be decremented is at least 1 and the accounting stays exact |
| Dags.CountersEnd | backend/src/engine/executor.js:512-523 | after the last successor, counters are again the numbers of edges from unreleased sources |
| NodeRun.MaxRetries | backend/src/engine/limits.js:176-180 | a retry count is floored at 0, capped, and in between itself |
| NodeRun.EvaluatePrefix | backend/src/engine/executor.js:265-325 | when the synchronous part of a node ends in each of its ways: quiet failure iff `executeIf` throws, skip iff it is false, launch iff the gate is open and inputs (overridden ones first) and batch array can be had, loud failure otherwise |
| NodeRun.AttemptOnce | backend/src/engine/executor.js:351-402 | the loop stops at the first answer and fails only after exactly 1 + maxRetries throws |
| NodeRun.AttemptsExact | backend/src/engine/executor.js:359-401 | that contract determines the loop's result and number of calls: it and the recursive form are equivalent |
| NodeRun.RunBatch | backend/src/engine/executor.js:411-421 | item results in item order, none if any item fails, and the calls made meanwhile |
| NodeRun.Perform | backend/src/engine/executor.js:404-487 | beyond the cap a batch fails without a call; within it, it succeeds iff every element does, with the elements' values in order under `items` and their number under `count`; a single call fails iff all attempts throw, else its answer is the output and the node waits iff the answer carries the marker; and the calls are the attempts made |
| NodeRun.BatchCallsBound | backend/src/engine/executor.js:412-420 | a batch makes at most (1 + retries) calls an item |
| NodeRun.InvocationBound | backend/src/engine/executor.js:351-433 | a launched node makes 1 to 1 + min(retry, cap) calls; a batch at most that many an item, and none at all beyond the iteration cap |
| NodeRun.ApplyOutputMapping | backend/src/engine/executor.js:567-581 | the loop binds each non-empty target to its path in the output, later entries winning, and nothing else |
| NodeRun.PathFollowed | backend/src/engine/executor.js:575-581 | a dotted path is followed field by field between its dots, null where a field is missing or there is no object; the empty path is the value itself |
| NodeRun.Publish | backend/src/engine/executor.js:470-479 | `outputVar` holds the output or the field the plugin names as primary, every other target what its last entry's path leads to in the output, and no other variable changes |
| NodeRun.BindingKeys | backend/src/engine/executor.js:470-479 | which variables a success binds depends on the node's definition alone, never on the output |
| Semantics.FlowOfValid | backend/src/engine/executor.js:243-494 | every job of the modelled engine meets the assumptions under which the run theory is proved |
| Semantics.StartKeeps | backend/src/engine/executor.js:243-325 | starting any node whose parents are settled keeps the whole run invariant (results explained, context right, abort flag, calls, write log) |
| Semantics.FinishKeeps | backend/src/engine/executor.js:404-494 | so does the completion of any plugin call in flight |
| JobResults.StatusEquation | backend/src/engine/executor.js:243-278 | in a run that was not aborted, a node is pending iff a parent is waiting or pending, else skipped if a parent is skipped, else its own outcome, on resumed runs too |
| JobResults.PendingHasWaitingAncestor | backend/src/engine/executor.js:534-538 | fresh or resumed, every pending node has a waiting proper ancestor |
| JobResults.PendingIffWaitingAncestor | backend/src/engine/executor.js:508-538 | on a fresh run a node ends pending if and only if it has a waiting proper ancestor |
| JobResults.AggregateExact | backend/src/engine/executor.js:540-550 | failed iff aborted; else partial iff some record failed; else waiting iff some record waits; else success |
| JobResults.SuccessIsComplete | backend/src/engine/executor.js:545-550 | overall "success" implies that every declared node is success or skipped, fresh or resumed |
| JobResults.RowsStayClosed | backend/src/engine/executor.js:243-256 | what a job leaves to be taken over, aborted or not, has all its parents settled if what it took over had |
| JobResults.Confluence | backend/src/engine/executor.js:508-524 | an aborted run and a complete run of one workflow, fresh or over the same closed rows, agree on every node the aborted one reached, and its abort shows in the other |
| JobResults.Deterministic | backend/src/engine/executor.js:508-524 | two complete runs, fresh or over the same closed rows, whatever their completion orders, end with the same results and the same context |
| Reference.ReferenceIsRun | backend/src/engine/executor.js:497-553 | evaluating the nodes one by one in a topological order is itself a legal complete run |
| Reference.RunsComputeReference | backend/src/engine/executor.js:497-553 | every complete run ends exactly as that sequential evaluation |
| Executor.Execution.RecordOutcome | backend/src/engine/executor.js:120-135 | one record in results and context, one write issued, nothing else |
| Executor.Execution.HandleFailure | backend/src/engine/executor.js:489-494 | sets the abort flag exactly for terminating nodes, never clears it |
| Executor.Execution.FindSkippedParent | backend/src/engine/executor.js:254-256 | the search finds one if and only if some parent is skipped |
| Executor.Execution.StartNode | backend/src/engine/executor.js:243-325 | the method's new state is the pure start step that `Semantics.StartKeeps` covers |
| Executor.Execution.FinishNode | backend/src/engine/executor.js:404-494 | the method's new state is the pure finish step that `Semantics.FinishKeeps` covers |
| Executor.Execution.FinishLayer | backend/src/engine/executor.js:510 | the calls of a layer complete in an arbitrary order until none is in flight |
| Executor.Execution.ReleaseSuccessors | backend/src/engine/executor.js:518-522 | decrement and enqueue loop over one node's successors |
| Executor.Execution.Propagate | backend/src/engine/executor.js:512-523 | the whole layer's propagation, waiting nodes left out |
| Executor.Execution.HydrateRow | backend/src/engine/executor.js:157-187 | what one stored row does: unknown node, waiting, non-terminal, replayed success, and the release of its successors |
| Executor.Execution.Hydrate | backend/src/engine/executor.js:149-188 | the loop over the stored rows, in any row order |
| Executor.HydratedExactly | backend/src/engine/executor.js:149-188 | in whatever order rows come, hydration takes over exactly the declared terminal and waiting ones, with exact counters and, where no variable has two writers, exactly the replayed variables |
| Executor.ClampNeverClips | backend/src/engine/executor.js:184-186 | during rehydration the clamp at 0 never acts: clamped decrements leave the same exact counters |
| Executor.ReleaseKeepsQueue | backend/src/engine/executor.js:518-522 | a release keeps counters exact and the ready list exactly the unrecorded nodes with counter 0, without duplicates |
| Executor.PropagateKeepsQueue | backend/src/engine/executor.js:512-523 | so does a whole layer's propagation |
| Executor.ReadyLayer | backend/src/engine/executor.js:508-511 | every node of a ready list is declared, unrecorded, listed once and has all parents settled: it may start |
| Executor.RoundsKeep | backend/src/engine/executor.js:508-524 | counters, ready list and run invariant hold after any number of layers |
| Executor.RoundGrows | backend/src/engine/executor.js:508-524 | each layer strictly grows the set of recorded nodes, within the declared ones |
| Executor.Execution.RunLayers | backend/src/engine/executor.js:508-524 | the scheduler loop terminates, with nothing ready or aborted, in a state reached by whole layers |
| Executor.Execution.Reconcile | backend/src/engine/executor.js:526-538 | every declared node without a record is recorded and written as pending |
| Executor.AbortedFollowsDiscipline | backend/src/engine/executor.js:489-526 | after an abort every node of the aborting layer is recorded, nothing outside it started afterwards, and everything else is pending, never skipped |
| Executor.JobFinished | backend/src/engine/executor.js:497-553 | whatever the layers did, the final state keeps the contract of a job (and the abort discipline) |
| Executor.TakenOverOrRun | backend/src/engine/executor.js:149-188 | a declared row that is success, failed, skipped or waiting is taken over unchanged, not run and not written; any other declared node starts in the job or ends pending |
| Executor.ExecuteDag | backend/src/engine/executor.js:72-554 | the whole engine call keeps the contract of a job, for every plugin behaviour, stored rows and completion order; its status is failed iff aborted, else partial iff some record failed, else waiting iff some record waits, else success; done rows are taken over as they are |
| NodeStates.LoadNodeStates | backend/src/engine/nodeStateStore.js:71-95 | the loop loads status and output of every row |
| NodeStates.ApplyByRow | backend/src/engine/nodeStateStore.js:20-65 | a row depends only on that node's writes, merged in their order |
| NodeStates.LandingOrderIrrelevant | backend/src/engine/executor.js:131-134 | two landing orders that agree node by node leave the same table |
| DurableJob.RowsAgreeWithMemory | backend/src/engine/nodeStateStore.js:44-64 | once a job's writes have landed, every declared node's row is its in-memory record despite the COALESCE merge, hydrated rows are untouched, and only success and waiting rows hold outputs |
| DurableJob.RowInputs | backend/src/engine/nodeStateStore.js:12-62 | a job that launches a node leaves in its row the inputs the plugin was given; any other job leaves the stored inputs alone |
| ExecutionStore.Store.Resume | backend/src/api/executions.js:150-221 | refusals; the failed node with the earliest finish where none is named; then that row is pending without output and with the edited inputs if there are any, every other row stands, one job with exactly these overrides is queued, and no job takes the row over |
| ExecutionStore.Store.Skip | backend/src/api/executions.js:223-266 | refusals; then that row is skipped without output, every other row stands, one job is queued, and any job of a graph with that node takes the row over |
| ExecutionStore.Store.Respond | backend/src/api/executions.js:268-313 | answers exactly a waiting row, whatever the execution's own status: the row turns success with the posted answer (the body's `data` where it has one, else the body) under `data`, every other row stands, one job is queued and takes the row over |
| ExecutionStore.Store.Reap | backend/src/engine/nodeStateStore.js:141-176 | of an orphaned execution exactly the running rows turn failed, keeping inputs and output; every other row and execution stays |
| ExecutionStore.TakeFirst | backend/src/worker.js:294-299 | taking out the first pending write of its node leaves every node's order intact |
| ExecutionStore.Store.Drain | backend/src/worker.js:294-327 | all issued writes land, in any order that keeps each node's own order |
| ExecutionStore.Store.ProcessJob | backend/src/worker.js:137-347 | one job, in its three ways. A single run exactly when inputs and context hold no items: rows loaded, engine run under its contract from reserved keys, given inputs, persisted context (with nothing given) and workflow data in that order of precedence, writes drained, reserved keys stripped, status stored. A batch: a fresh run for each item from that item, no row read or written, summaries persisted in order. Or refused beyond the iteration cap |
| ExecutionStore.BatchItemsExact | backend/src/worker.js:172-186 | what a job fans out over: the given array, the array given under `items`, or with nothing given the array the persisted context holds there |
| ExecutionStore.BatchContextStored | backend/src/worker.js:353-378 | a batch persists that it was one and, per item in order, its index, its status and its context without reserved keys |
| ExecutionStore.NextJobIsBatchIff | backend/src/worker.js:172-186 | after a single run the next job is a batch iff there are no inputs and the run left an array under `items` |
| ExecutionStore.StaysSingle | backend/src/worker.js:172-187 | if no node binds `items` and the workflow's data hold no array there, single runs are followed by single runs, whatever else the nodes write |
| ExecutionStore.WaitingItemIsPartial | backend/src/engine/batch.js:65-67 | an item that pauses makes its batch "partial" |
| Recovery.ResumedNodeRuns | backend/src/api/executions.js:182-218 | the job after a `/resume` runs that node again as soon as no parent is waiting, pending or skipped, and gives its plugin the edited inputs |
| Recovery.SkipCascades | backend/src/api/executions.js:239-248 | the job after a `/skip` launches no descendant of that node, however far away: each ends skipped, or pending behind a waiting node |
| Recovery.OthersStand | backend/src/engine/executor.js:149-188 | in either case every other done row is taken over as it was |
| ExecutionStore.FanStatusExact | backend/src/engine/batch.js:65-67 | a batch job ends "success" iff every item's run does, so also when there is no item |
| Protocol.ExecutorIsAccepted | backend/src/engine/executor.js:120-135 | every prefix of what the engine writes is a write sequence the protocol allows, so a crash may fall anywhere |
| Protocol.StepIsSafe | backend/src/api/executions.js:150-313 | every protocol step (start, issue, land, lose, fan out, finish, crash, reap, resume, skip, respond) keeps the durable state safe |
| Protocol.DoneStays | backend/src/engine/nodeStateStore.js:20-65 | a finished or waiting row stays so under every step but a `/resume` of that node |
| Protocol.NeverWrittenAgain | backend/src/engine/executor.js:149-188 | over any history, no job, single or batch, writes a row that is finished or waiting unless its node was resumed in between |
| Protocol.NeverInvokedAgain | backend/src/engine/executor.js:503-524 | a node whose row is finished or waiting is not invoked unless it was resumed in between, or the job that invokes it is a batch with at least one item and no more than the cap |
| Protocol.SuccessNeverReinvoked | backend/src/engine/executor.js:503-524 | over any history from the start, outside such a batch, a node whose row is success is never invoked again unless it is itself the target of a `/resume` |
| Protocol.SingleThroughout | backend/src/worker.js:172-186 | no job of a history is a batch if the first is not and there are inputs, or no single run persists an array under `items` |
| Protocol.ReinvokedIff | backend/src/engine/batch.js:18-63 | the next job can invoke a finished node without a resume if and only if inputs and persisted context make it a batch with at least one item and no more than the iteration cap |
| Protocol.TakenOverNeverWritten | backend/src/engine/executor.js:149-188 | a job never writes a row it took over, and that row stays finished or waiting while the job lives; no row ever holds a stale output |
| PauseResume.JoinedRun | backend/src/api/executions.js:268-313 | the paused run and the run resumed with any answers put together are one complete run of the workflow that gives these answers at once |
| PauseResume.JoinedNoAborts | backend/src/engine/executor.js:489-494 | and that run contains no abort |
| PauseResume.PauseResumeEquivalence | backend/src/engine/executor.js:149-188 | every node's final status and output and every context binding equal those of one uninterrupted run |
| PauseResume.ManyPausesJoin | backend/src/api/executions.js:268-313 | by induction over the chain of jobs, all of them together are one fresh unaborted run that answers at once, context included |
| PauseResume.ManyPauses | backend/src/api/executions.js:268-313 | over any number of pauses, each ended by any number of responses, the uninterrupted run that gives all answers at once ends with the last job's results and context |
| Theorems.JobComputesReference | backend/src/engine/executor.js:497-553 | a fresh job that is not aborted returns exactly the sequential reference evaluation |
| Theorems.StartedOnceAfterParents | backend/src/engine/executor.js:503-524 | per job a node runs at most once, never when hydrated, and only with every parent success, failed or skipped |
| Theorems.RecordIsAnswer | backend/src/engine/executor.js:351-487 | a success or waiting record of a single node holds the answer of the one attempt that was answered, on the inputs resolved or given; it waits iff that answer carries the marker, and the calls counted are the attempts |
| Theorems.OutputsReachContext | backend/src/engine/executor.js:470-479 | what a successful node hands on, `outputVar` and every mapped path, is in the context at the end of the job |
| Theorems.AbortsExactlyWhen | backend/src/engine/executor.js:265-310 | a node aborts iff it fails under `terminate` and not through an `executeIf` evaluation error |
| Theorems.JobAbortsExactlyWhen | backend/src/engine/executor.js:489-526 | a job is aborted, and "failed", iff some node failed in it under `terminate` whose `executeIf` did not throw in what it saw |
| Theorems.NodeCallsBound | backend/src/engine/limits.js:176-208 | no node exceeds (1 + min(retry, cap)) times its batch's length or 1, and no batch counts beyond the iteration cap |
| Theorems.JobCallsBound | backend/src/engine/executor.js:351-433 | the plugin calls of a whole job stay within the sum of these budgets over the nodes that started |
| Theorems.ReplayRestoresExactly | backend/src/engine/executor.js:169-178 | rehydration restores what readers see of a run's context iff every success with null output binds only what the later job's initial data read as anyway |
| Theorems.AnswerWorldAnswers | backend/src/engine/executor.js:450-460 | a plugin that returns the response instead of the waiting marker changes exactly the waiting outcome of that node |
| WorkerResume.RespondedRows | backend/src/api/executions.js:290-303 | the rows after the responses are exactly what the resumed job takes over |
| WorkerResume.ResponsesCommute | backend/src/api/executions.js:290-303 | responses to several waiting nodes, each answered once, leave the same rows in whatever order they are given |
| WorkerResume.LateResponse | backend/src/api/executions.js:268-313 | a response to a row that the live job took over comes to the same before and after that job's writes have landed |
| WorkerResume.ResumedInitialData | backend/src/worker.js:172-187 | a resumed job's initial data, from inputs or from the persisted context, differ from the first job's only in what was bound since |
| WorkerResume.JobReplaysExactly | backend/src/worker.js:172-187 | for two real jobs, the second from the first one's rows and persisted context: same readings iff no null success binds a variable that the initial data hold and the second job reads afresh, which is any variable where there are inputs and a reserved key otherwise |
| WorkerResume.AnswerStep | backend/src/api/executions.js:268-313 | any number of responses and one resumed single run keep rows, results and context those of one fresh run that answers at once |
| WorkerResume.WorkerManyPauses | backend/src/worker.js:137-347 | any number of pauses, each ended by one response or several, each job run from the rows and the context the one before left, writes landing in any order: same results and context as one uninterrupted job, which does not abort either |
| WorkerResume.WorkerPauseResume | backend/src/worker.js:137-347 | the same for one pause and one response |
| EndToEnd.AnswerLater | backend/src/api/executions.js:268-313 | through the store: first job, drained writes, `/respond` accepted exactly for a waiting row, resumed job from those rows; each a single run exactly when inputs and context say so |
| EndToEnd.WaitingRow | backend/src/engine/executor.js:450-460 | a waiting node's row waits once the writes have drained |
| EndToEnd.AnswerIsKept | backend/src/engine/executor.js:149-178 | in the resumed job the answered node's record is a success that holds the posted answer |
| EndToEnd.PauseAnswerResume | backend/src/worker.js:137-347 | the whole lifecycle carried out beside an uninterrupted job: wherever the pause theorem applies both end with the same status, records and context, and both hold the posted answer |
| Departures.NullOutputIsLost | backend/src/engine/executor.js:169-178 | a job overwrites a variable with null; the job that takes over its row reads the old value again |
| Departures.FailsQuietly | backend/src/engine/executor.js:267-271 | a terminating node fails in its `executeIf`, yet the job is not aborted and ends "partial" |
| Departures.FlipPauses | backend/src/worker.js:172-187 | an execution whose first job pauses and meets every hypothesis of the pause theorem |
| Departures.ResumedAsBatch | backend/src/worker.js:172-186 | the job that its response starts is a batch |
| Departures.BatchFetchesAgain | backend/src/engine/batch.js:44-61 | and invokes the successful node again, waits again and ends "partial" |
| Departures.EmptyBatchSucceeds | backend/src/engine/batch.js:63-67 | where the array is empty that job runs nothing and the execution ends "success" with a node still pending |
| Batch.ClaimKeeps | backend/src/engine/batch.js:46-47 | a worker's claim keeps the pool invariant: indices claimed once, in order, held by one worker |
| Batch.StoreKeeps | backend/src/engine/batch.js:50-59 | so does storing a result |
| Batch.InFlightBound | backend/src/engine/batch.js:63 | at most one item in flight a worker |
| Batch.RunPool | backend/src/engine/batch.js:41-63 | under every interleaving each index is claimed exactly once, slot i holds item i's result, all slots are filled, and the peak stays within the worker count |
| Batch.BatchStatusExact | backend/src/engine/batch.js:65-67 | success iff all succeed (also for no items), failed iff there are items and all fail, else partial |
| Batch.ExecuteBatch | backend/src/engine/batch.js:17-75 | refused up front exactly beyond the iteration cap; otherwise each item's index and own status in order ("failed" where its run throws), the overall status and at most min(concurrency, n) in flight |
| Text.JoinSplit | backend/src/rag/chunk.js:56 | splitting at a separator and joining with it gives the text back |
| Text.SplitLeftmost | backend/src/rag/chunk.js:56 | every piece but the last ends at the first separator after its start, and the last holds none |
| Text.TrimExact | backend/src/rag/chunk.js:85 | trimming takes the white space off both ends, all of it, and nothing else |
| Chunk.NormaliseExact | backend/src/rag/chunk.js:35 | every CR-LF pair becomes one line feed and nothing else changes |
| Chunk.SplitEssence | backend/src/rag/chunk.js:56 | splitting loses only separator characters |
| Chunk.TrimmedKeeps | backend/src/rag/chunk.js:85 | trimming and dropping empty parts loses only white space, keeps the bound and leaves no blank part |
| Chunk.SliceText | backend/src/rag/chunk.js:48-54 | the hard split gives the text back, every slice but the last of full size |
| Chunk.PackPieces | backend/src/rag/chunk.js:57-84 | groups fit and are the pieces, oversized ones replaced by what they split into, joined by the separator in order with only empty ones left out; when no piece is oversized, no two neighbouring groups could have been joined |
| Chunk.SplitRecursive | backend/src/rag/chunk.js:42-86 | conservation up to white space and full stops, order, the size bound and no blank part; and level by level what the parts are made of: pieces split at the next separator, joined into groups, trimmed |
| Chunk.ApplyOverlap | backend/src/rag/chunk.js:88-97 | chunk i > 0 is the last characters of part i-1 up to the overlap's length, a space unless these end in a space or line break, then part i |
| Chunk.OverlapBound | backend/src/rag/chunk.js:88-97 | every chunk is at most the part bound plus the overlap plus 1 |
| Chunk.ChunkText | backend/src/rag/chunk.js:33-40 | all of this for the public function, on the normalised text, with the effective size max(50, chunkSize) and the clamped overlap |
| Tokens.TokenStore.IssueRefreshToken | backend/src/auth/tokens.js:91-127 | a new row that expires one lifetime from now; an unrevoked predecessor is revoked and linked to it; every other row stands |
| Tokens.TokenStore.ConsumeRefreshToken | backend/src/auth/tokens.js:129-159 | accepts exactly unrevoked, unrotated, unexpired tokens; a rotated one burns every token of its user; otherwise no row changes |
| Tokens.TokenStore.RevokeRefreshToken | backend/src/auth/tokens.js:161-173 | revokes that token alone |
| Tokens.TokenStore.RevokeAllForUser | backend/src/auth/tokens.js:175-183 | afterwards none of the user's tokens is unrevoked, everyone else's are untouched, and the count is that of the tokens revoked |
| Tokens.TokenStore.Refresh | backend/src/api/auth.js:178-226 | consume, check the user, rotate: which refusals when, and the new table row by row |
| Tokens.DeletedRows | backend/src/retention/policies.js:83-100 | deleting rows nulls the links to them and changes nothing else |
| Tokens.StepKeepsChains | backend/src/auth/tokens.js:91-183 | every step keeps rotation links forward, within one user, from revoked tokens, with one source a target |
| Tokens.NoRotationCycle | backend/src/auth/tokens.js:91-127 | rotation chains are acyclic |
| Tokens.ChainsDisjoint | backend/src/auth/tokens.js:91-127 | lying on one chain is transitive: chains are disjoint |
| Tokens.OneConsumablePerChain | backend/src/auth/tokens.js:129-159 | after any history a chain belongs to one user and has at most one consumable token |
| Tokens.ReplayBurnsUntilLogin | backend/src/api/auth.js:178-226 | presenting a rotated token leaves its user without a consumable token, whatever follows, until that user logs in |
| Tokens.RefreshSwaps | backend/src/api/auth.js:178-226 | a successful refresh swaps exactly one active token for its successor and touches no other user |
| Tokens.SessionsBoundedByLogins | backend/src/api/auth.js:128-226 | a user never has more active tokens than logins |
| Tokens.SessionsExpire | backend/src/auth/tokens.js:91-159 | one lifetime after the last login or refresh of a history no token is accepted |
| Tokens.SessionSurvives | backend/src/auth/tokens.js:91-183 | an active token stands, and is accepted until it expires, through any steps that are not its own refresh, logout or deletion or a revocation of its user |
| History.NewestSeqsExact | backend/src/engine/memoryStore.js:214-228 | a read takes the n greatest numbers in ascending order |
| History.LoadExact | backend/src/engine/memoryStore.js:208-230 | a read returns the values of the newest turns of that conversation, oldest first, as many as asked for but at most 200 |
| History.MemoryStore.AppendHistory | backend/src/engine/memoryStore.js:173-202 | two attempts; on success one new row numbered one past the maximum, on refusal no change |
| History.MemoryStore.ClearHistory | backend/src/engine/memoryStore.js:233-247 | removes exactly the rows of the conversation and returns their number |
| History.MemoryStore.PruneConversationHistory | backend/src/retention/policies.js:133-157 | removes only rows ranked past keepTurns, however the LIMIT picks; no read of at most keepTurns turns changes, in any conversation |
| History.AppendRefusedIff | backend/src/engine/memoryStore.js:177-200 | an append is refused iff another workspace's row of the thread holds the next number |
| History.SecondWorkspaceRefused | backend/src/engine/memoryStore.js:177-200 | two workspaces on one thread: the second is refused |
| History.RefusedForGood | backend/src/engine/memoryStore.js:177-200 | a refused append stays refused through any further appends |
| History.AppendThenLoad | backend/src/engine/memoryStore.js:208-230 | what is appended is what the next read ends with; other conversations read the same |
| History.ExcessAfter | backend/src/retention/policies.js:137-156 | a pruning shortens the set of rows past keepTurns by what it removed and by nothing else |
| History.DrainedHistory | backend/src/retention/policies.js:123-132 | after the last pruning a conversation holds exactly its newest keepTurns turns |
| History.PruningNeverSeen | backend/src/retention/policies.js:133-157 | over whole runs of appends, clears and prunings, every read of at most keepTurns turns is as if nothing had ever been pruned, where each thread has one writer |
| History.PruningNeverSeenIff | backend/src/retention/policies.js:133-157 | for given writers that holds of all runs if and only if no two of them share a thread, or keepTurns is 0 |
| History.SharedWritersSee | backend/src/engine/memoryStore.js:177-200 | for any two writers on one thread and any keepTurns of at least 1: a run in which pruning lets through an append that is refused without it |
| History.NumbersCountAppends | backend/src/engine/memoryStore.js:180-195 | with keepTurns at least 1 the next number is 1 plus the appends accepted since the last clear, pruned or not, whoever writes |
| History.NumbersUsedOnceIff | backend/src/retention/policies.js:133-157 | that holds for all runs if and only if keepTurns is at least 1 |
| History.KeepingNoneReuses | backend/src/retention/policies.js:133-157 | with keepTurns 0 a pruning makes the next turn take number 1 again |
| Retention.Retention.DeleteWithLimit | backend/src/retention/policies.js:223-226 | a bounded delete takes expired rows of its slice only, as many as the limit lets, and none younger than one it leaves |
| Retention.Retention.PruneExecutions | backend/src/retention/policies.js:36-73 | the two slices in order, with a throw before or between them |
| Retention.PassProgress | backend/src/retention/runner.js:93-104 | each pass keeps the counters equal to the rows removed, save the uncounted rows of a pass that throws in between |
| Retention.ShortPassDrains | backend/src/retention/runner.js:103 | a pass whose total is below the limit has emptied both slices |
| Retention.CountsExactIff | backend/src/retention/runner.js:178-189 | the total equals the rows removed unless, before the drain starts, some pass p below the cap is the first to throw, between its statements, with more than p times limit success rows eligible |
| Retention.FaultHidesRows | backend/src/retention/policies.js:45-67 | a drain that deletes a row and reports nothing, whatever its limits |
| Retention.Retention.DrainExecutions | backend/src/retention/runner.js:178-189 | only executions past the window of their outcome go, never queued, running or waiting ones; a drain that stops early without a throw leaves none; and the counters are exact under that condition |
| Retention.DrainHistory | backend/src/retention/runner.js:119-127 | exact counts even when a pass throws, reads unchanged, and every conversation down to its newest keepTurns turns when it stops early |

## Left out

- Plugins, FEEL expressions and the registry are foreign code: a `World` of arbitrary functions. An unknown action, for which registry lookups throw, is a plugin that throws.
- JSON Schema validation and `normalizeKeyValueList`: the model starts from a well-typed graph. Plugin-required inputs are an arbitrary `missing` function.
- Parser.ParseDag: does not model a parse of JSON text or the in-place rewriting of inputs and outputs.
- Timers: no node or workflow timeout fires, retry delays are no-ops, and abort signals are not modelled.
- Events, streams, spans and logs; `attempts`, `error`, `reason` and timestamps of node rows and results; the `roots` list; the reason given with an abort.
- Plugins read the context as it was when their node started. The source hands them the live object, so a plugin may also see what siblings publish while it runs; `Local` excludes that such a read matters.
- Context variables named `nodes` (which the source would overwrite with node records) and names on `Object.prototype`.
- NodeRun.ApplyOutputMapping: dot paths go through objects; property reads on arrays and strings, the primary field of an array, and JavaScript's ordering of integer-like keys are not modelled.
- Null and undefined are one value.
- ExecutionStore.Store.Resume: workspace and authorisation lookups are left out; `finished_at` is a parameter, and the choice among failed rows that finished at one time is open. The model has one execution at a time.
- ExecutionStore.Store.ProcessJob: at most one live job an execution; the items of a batch run one after the other, their interleaving being `Batch.RunPool`; of an item's summary the node records, and of an array item its index keys, are left out; the failure path after a throw and writes still in flight then are part of `Protocol`'s crash step. The persisted trace key `_otel` is not modelled.
- Protocol.NeverInvokedAgain: assumes that the writes of one node land in the order they were issued, and that the reaper acts only when no job is live.
- Batch.ExecuteBatch: what a single item's run does is an arbitrary function of its index and item; its contract is `Executor.ExecuteDag`. A `concurrency` that is not an integer is not modelled.
- Chunk.ChunkText: the token estimate; the exact set of Unicode white space is a fixed list.
- Tokens: hashing, randomness and cookies; a token is its row. Each refresh is one step, so two refreshes racing with one token are not modelled. Single sign-on logins are the login step.
- History: a statement is atomic, so the retry of an append never meets a concurrent writer. Key-value memory is untouched by all of this and not modelled.
- Retention: refresh-token, audit-log and project policies drain through the same loop with a single slice; the schedule and environment parsing are not modelled. Deleting refresh-token rows is a step of `Tokens`.
- RBAC, quotas, compliance, guardrails, health checks, model routing, evaluations, configuration encryption, AI chat and the frontend: other subsystems.
