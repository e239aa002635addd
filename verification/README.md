# The run scheduler of codex-orch

codex-orch executes a pool of tasks as *runs*. A run freezes part of the pool and then grows: each
task is instantiated when its dependencies have instances it may be bound to, loop controllers open a
new *input scope* for each further iteration, route and stop targets are instantiated only where their
controller chose them, and attempts of many instances are in flight at once. Workers may ask for help
through interrupts; a run survives crashes by recovering attempts from what their workers left behind.

This project models `RunService`, the graph validation it relies on, the part of the project store it
reads and writes, and the line splitter of the runner. It proves what every step keeps, what holds in
every reachable state and along every run, and that the loops of the scheduler do what those
statements need.

## How it is built

A run is described twice, and the two are tied together.

* **As a state machine.** `RunState` has the state of one run (frozen tasks, scopes, instances, stored
  results, interrupts and replies, event log, attempts in flight), the thirteen kinds of step
  (`Action`), when each may be taken (`Enabled`) and what it does (`Next`). `Invariants` and
  `Preservation` show that every step keeps the invariant `Inv` and undoes nothing settled (`Evolves`).
  `RunTheorems`, `RunProgress`, `ClosedRuns` and `SeedOrder` draw the consequences.
  `StepOutcomes` tells what each step makes of an instance without the functions that compute it.
* **As the program.** `RunService.Run` is the scheduler working in place on its fields and on a
  `ProjectStore.Store`, loop by loop as in the source. Its ghost field `history` is the sequence of
  steps taken; `Valid()` says that the fields are what the state machine reaches by `history`. So
  whatever is proved of reachable states holds of a `Run` at every moment between two method calls.

| module | what it has |
|---|---|
| `Domain` | the records: tasks, scopes, instances, interrupts |
| `Closure`, `TaskGraph` | reachability by chains; ancestors, control edges, valid task sets, selections |
| `TaskPool` | the validation and selection loops, against `TaskGraph` |
| `InstanceGraph`, `BindingTrees` | bindings of instances: lineages, isolation, the bound on their number |
| `Iterations`, `TaskOrder`, `Rehearsal` | what an iteration makes anew and what it takes from the base scope; the order of visits; what visits do, played on the tasks alone |
| `ControlEnvelope` | what a controller may write |
| `Bindings`, `CandidateSearch` | lineage with its cache, candidate instances, the search for valid bindings |
| `SyncVisits`, `EarlyVisits`, `RehearsedSync` | what the visits of sync make of an iteration, which of them bind too early, and that sync does what was rehearsed |
| `ProjectStore`, `RunSteps`, `StepOutcomes`, `Episodes`, `RunService` | the store, the steps as methods take them, what they make of an instance, what the history keeps of attempts, the scheduler |
| `ChainRuns`, `Scenarios` | whole runs driven through the scheduler, ending where one would not expect it |
| `Composer`, `Runner`, `StreamLines` | input lookup, what a worker leaves behind, the line splitter |

## What is assumed

* Each body that the source runs under the lock of a run is one atomic step. The end of an attempt does
  not look again at the status of its instance (`RunProgress.EndsDoneIff` says so), so recovery and abort
  are modelled only for times when this process has no attempt of the run in flight: after a crash, or
  between two calls of `run_snapshot`.
* Fresh identifiers are counters larger than every identifier in use. Beginning an attempt does not raise.
* Sync visits the tasks of a scope in the order of their identifiers, character by character, as the source
  does. Scopes, dictionaries of instances and the attempts of a round are taken in any order, and what is
  proved holds for every such order.
* What a worker does (requests for help, returned result, files), which replies arrive while the loop runs,
  and what recovery observes of a process are arbitrary parameters.

## Where code, documentation and expectation differ

* `docs/controller-runtime.md:231-232` says that `continue` instantiates the configured targets as seeds.
  When no continue target is an ancestor of another, a seed is instantiated exactly if the base scope has an
  instance of everything it depends on (`ClosedRuns.SeedInstanceIff`). It always has in the first iteration
  of a loop whose controller ran in the base scope and in all that continue it (`ClosedRuns.IterationStarts`).
  A seed that depends on a task which its controller did not choose in the base scope is never instantiated
  (`ClosedRuns.StarvedNeverStarts`); `Scenarios.StarvedSeed` drives the scheduler into that with a second
  loop behind the stop target of a first one.
* `docs/controller-runtime.md:235-236` says that `next_inputs` becomes the inputs of the next iteration.
  The code lays it over the values of the parent scope, so earlier values stay visible
  (`RunTheorems.ScopeHoldsPathInputs`).
* A task should have one instance in each iteration. Whether it has hangs on the order in which sync visits
  the tasks. `Rehearsal.OrderSuits` plays the visits on the tasks and the continue targets alone: none of them
  may bind its task too early, to a base instance of what the iteration makes anew. An iteration of a loop
  that started in the base scope ends the sync that opens it with an early binding, and, if no controller
  decides about a task between its seeds, with two instances of some task, exactly when the order does not
  suit (`RunService.Run.SyncInstances`, `RehearsedSync.LoopWillRehearse`). The order suits when no continue
  target is an ancestor of another, and also when each task between continue targets hangs on no
  controller's choice and its identifier sorts before those of the tasks that depend on it
  (`Rehearsal.OrderedSuits`); then a task has at most one instance in each iteration for the whole run
  (`RunTheorems.InstancesUnique`, `RunService.Run` keeps its condition). It does not suit when a continue target that depends on another sorts before everything between them
  (`Rehearsal.EarlySeedUnsuited`). `Scenarios.DoubledIteration` is a run with such a loop.
* Ending an attempt in process and crashing at that moment and recovering it leave the same exactly when the
  worker was started, and it completed or nothing blocks the instance (`Runner.EndingsAgreeIff`): recovery
  fails an unsuccessful attempt without looking at its open interrupts, and finds nothing of a worker that
  could not be started but a record without a process.
* Recovery reports neither the end of the attempt nor that its instance is done or waits
  (`Runner.RecoveryReportsNoEnd`), although `docs/controller-runtime.md:364-365` asks for corrective events.
* `docs/controller-runtime.md:195-199` says that a controller without a conforming result must fail. A
  controller whose result document is just `null` ends done with no result stored, in process and by
  recovery, since the null is taken for a missing optional document (`RunProgress.SilentControllerIff`). It
  then never opens a scope, and nothing it controls is ever bound to it (`RunTheorems.SilentChoosesNothing`).
* A run is reported done although tasks never ran, after it was aborted and resumed: what abort skipped stays
  skipped (`RunProgress.AbortedStays`), and at rest done is reported exactly when every instance is done or
  was skipped because of an abort (`RunProgress.ReportedDoneIff`). `Scenarios.AbortedButDone` is such a run.
* A reply may be saved for an interrupt that was already applied and makes it resolved again; what holds is
  that no interrupt is ever open again (`RunTheorems.AnsweredStaysAnswered`).

## Model

| member | source | states |
|---|---|---|
| TaskPool.CollectAncestors | src/codex_orch/task_pool.py:536-552 | the worklist ends on every graph, cyclic or not, and returns exactly the tasks reached by one or more dependency steps |
| TaskPool.ValidateCycles | src/codex_orch/task_pool.py:554-572 | passes exactly when the dependency relation has a topological rank |
| TaskPool.CycleCheck.Visit | src/codex_orch/task_pool.py:558-569 | a visit that returns leaves the task among the visited ones, which stay in finishing order; one that raises has found a task that reaches itself |
| TaskPool.ValidateDependenciesExist | src/codex_orch/task_pool.py:252-262 | passes exactly when every dependency is in the pool |
| TaskPool.ValidateControllerRoutes | src/codex_orch/task_pool.py:477-534 | passes exactly when every control edge is well formed and no task is named by two, in whatever order controllers are visited |
| TaskPool.ClaimOwned | src/codex_orch/task_pool.py:484-501 | accepts route or stop targets exactly when they exist, are distinct, unclaimed and depend on the controller |
| TaskPool.ClaimContinues | src/codex_orch/task_pool.py:521-534 | accepts continue targets exactly when they exist, are distinct, unclaimed and ancestors of the controller |
| TaskPool.ValidateTaskGraph | src/codex_orch/task_pool.py:264-273 | passes exactly on valid task sets: closed dependencies, sound control edges, no cycle |
| TaskPool.SelectSubgraph | src/codex_orch/task_pool.py:168-200 | ends; returns the part of the pool on exactly what the roots need; every task asked for by name or carrying one of the labels is in it; fails exactly when there is no root or something needed is missing |
| TaskPool.LeastSelectionIsLeast | src/codex_orch/task_pool.py:182-200 | every set with the roots and, with each of its tasks, all that the task depends on and controls contains the selection |
| TaskGraph.SelectionHasNeeds | src/codex_orch/task_pool.py:182-200 | with a task a selection has everything the task depends on and every task its control names |
| TaskPool.RootsIff | src/codex_orch/task_pool.py:175-179 | a task is a root exactly if it is asked for by name or is in the pool and carries one of the labels |
| TaskGraph.SelectionKeepsAncestors | src/codex_orch/scheduler/service.py:945-959 | a selected task has the same ancestors in the frozen run as in the pool |
| TaskGraph.SelectionKeepsOwner | src/codex_orch/scheduler/service.py:915-930 | a selected task has the same control owner in the frozen run as in the pool |
| TaskGraph.SelectionValid | src/codex_orch/scheduler/service.py:61-63 | what is selected from a valid pool is itself a valid task set |
| TaskGraph.AncestorsUnfold | src/codex_orch/scheduler/service.py:945-959 | the ancestors of a task are its dependencies and their ancestors |
| TaskGraph.OwnerUnique | src/codex_orch/scheduler/service.py:915-930 | on valid control edges the owner found first is the only one |
| TaskGraph.OwnerIsDependency | src/codex_orch/task_pool.py:496-501 | the owner of a task is one of its dependencies |
| RunService.CreateSnapshot | src/codex_orch/scheduler/service.py:54-121 | succeeds exactly on a valid pool with roots that exist; the new run has the least selection, is closed under sync, swept, with nothing running |
| RunTheorems.ReachableStep | src/codex_orch/scheduler/service.py:137-528 | whatever a step makes of a reachable state is reachable |
| Preservation.StepKeeps | src/codex_orch/scheduler/service.py:137-528 | every step keeps the invariant and changes nothing settled: bindings, scopes, done instances with their results, answered interrupts, the log so far |
| Preservation.RunKeeps | src/codex_orch/scheduler/service.py:137-528 | the same along every run, whatever order its steps come in |
| Preservation.InitialOk | src/codex_orch/scheduler/service.py:76-117 | a run of a valid task set starts with the invariant |
| RunTheorems.LineageCovers | src/codex_orch/scheduler/service.py:1083-1109 | in every reachable state the lineage of an instance has instances of exactly its task and the ancestors of its task |
| RunTheorems.LineageUnique | src/codex_orch/scheduler/service.py:1111-1121 | and only one of each, so a lineage is a function and merging dependency lineages never fails |
| InstanceGraph.LineageTasks | src/codex_orch/scheduler/service.py:1083-1109 | the tasks of a lineage are the task and its ancestors, by induction over both graphs |
| RunTheorems.DiamondsShare | src/codex_orch/scheduler/service.py:809-832 | two upstream instances that depend on the same task are bound to the same instance of it |
| RunTheorems.ActivationIsLineage | src/codex_orch/scheduler/service.py:825-848 | the activation bindings of an instance are its lineage restricted to the controllers that own a task in it |
| RunTheorems.IterationsIsolated | src/codex_orch/scheduler/service.py:833-913 | everything upstream of an instance lies in its scope or, for ancestors of the seeds only, in the base scope; outside the base scope a dependency path inside the scope leads to a seed |
| InstanceGraph.ScopeIsolation | src/codex_orch/scheduler/service.py:891-913 | the same for any well-placed graph, from the direct rule to the transitive one |
| RunTheorems.InstancesUnique | src/codex_orch/scheduler/service.py:739-776 | at most one base instance for each task; with antichain seeds, or when nothing between seeds is taken from the base scope, at most one in every scope |
| Iterations.GoodUnique | src/codex_orch/scheduler/service.py:891-913 | a task has at most one instance in an iteration that hangs on the iteration's own instances wherever the iteration makes them anew |
| TaskOrder.SortedIds | src/codex_orch/scheduler/service.py:740-740 | the visits are in strictly increasing order of the identifiers, each once |
| TaskOrder.PrecedesIff | src/codex_orch/scheduler/service.py:740-740 | an identifier comes before another exactly if they agree up to some place where it ends or has the smaller character |
| TaskOrder.AntichainOrdered | src/codex_orch/scheduler/service.py:739-776 | antichain seeds are a special case of loops that the order of visits suits |
| EarlyVisits.VisitIff | src/codex_orch/scheduler/service.py:741-776 | a visit leaves the iteration free of early bindings exactly if the guard does not hold: every dependency can be filled, the task is anchored, some dependency the iteration makes anew is missing, and none that is missing shares such a task with one that is there |
| EarlyVisits.VisitedFirstYetSpared | src/codex_orch/scheduler/service.py:809-832 | a task visited before one of its dependencies is not bound early if another one, already made anew, is upstream of it |
| SeedOrder.Twin | src/codex_orch/scheduler/service.py:739-776 | in a closed run every instance of an iteration in which nothing has ended, and every base instance the iteration makes anew, has a twin there bound to the iteration's own instances |
| SeedOrder.DoubledIff | src/codex_orch/scheduler/service.py:739-776 | such an iteration has two instances of some task exactly if one of its instances hangs on a base instance of what the iteration makes anew |
| Rehearsal.OrderedSuits | src/codex_orch/scheduler/service.py:739-776 | if what lies between continue targets hangs on no controller's choice and is visited before what depends on it, no visit in any number of passes binds too early |
| Rehearsal.EarlySeedUnsuited | src/codex_orch/scheduler/service.py:739-776 | if a continue target that depends on another is visited before everything between them, one does |
| RehearsedSync.GuardRehearsed | src/codex_orch/scheduler/service.py:809-913 | in every state of an iteration in which nothing has ended, with all its seeds depend on in the base scope, the guard of a visit is what the rehearsal says of the tasks present |
| RehearsedSync.FollowsVisit | src/codex_orch/scheduler/service.py:741-776 | a visit leaves the iteration with the tasks, and with the early bindings, that the rehearsal of one more visit says |
| RehearsedSync.GoodIffSuits | src/codex_orch/scheduler/service.py:727-778 | once the run is closed the iteration is free of early bindings exactly if the order of visits suits its seeds |
| RehearsedSync.LoopWillRehearse | src/codex_orch/scheduler/service.py:1047-1058 | every iteration of a loop that started in the base scope finds there all that its seeds depend on |
| Scenarios.DoubledIteration | src/codex_orch/scheduler/service.py:739-776 | a new run, three completed attempts and sync: the iteration that opens has two instances of one task |
| BindingTrees.TreesDiffer | src/codex_orch/scheduler/service.py:748-754 | instances with different keys have different binding trees |
| BindingTrees.InstancesBounded | src/codex_orch/scheduler/service.py:727-778 | an acyclic run with given scopes never has more instances than there are binding trees, a number fixed by the rank of the tasks |
| ControlEnvelope.ValidateControl | src/codex_orch/domain/runtime.py:223-257 | the loops return the normal form of an acceptable envelope and refuse all others |
| ControlEnvelope.ValidatedIdempotent | src/codex_orch/domain/runtime.py:223-257 | an accepted envelope is accepted again, unchanged, as when a stored control is read back |
| ControlEnvelope.NormalizedTidy | src/codex_orch/domain/runtime.py:242-250 | keys of accepted inputs are stripped, not blank and distinct; inputs are refused exactly for a blank key |
| ControlEnvelope.AcceptedIff | src/codex_orch/domain/runtime.py:223-278 | a result is accepted exactly if it emits declared labels that are not blank, or says stop without inputs, or continue with inputs under keys that are not blank; what is read then is what was written, with the inputs normalised |
| ControlEnvelope.NormalizedHolds | src/codex_orch/domain/runtime.py:242-250 | accepted inputs hold the keys as written without the blanks around them, and no others, each with the last value written for it |
| ControlEnvelope.PutPlaces | src/codex_orch/domain/runtime.py:242-250 | a repeated key keeps the place it first got and takes the new value; a new key comes last |
| ControlEnvelope.PutAssigns | src/codex_orch/domain/runtime.py:242-250 | assignment to a key of a dictionary is assignment in the map that the dictionary stands for |
| ControlEnvelope.TidyHolds | src/codex_orch/scheduler/service.py:1052-1055 | a dictionary without repeated keys stands for the map with its keys and with the value of each of its entries |
| ControlEnvelope.StripCuts | src/codex_orch/domain/runtime.py:242-245 | strip removes exactly the blanks at both ends |
| ControlEnvelope.AcceptedShape | src/codex_orch/scheduler/service.py:1004-1019 | an accepted continue carries inputs, an accepted stop none, a route neither action nor inputs |
| Bindings.MergeMapping | src/codex_orch/scheduler/service.py:1111-1121 | succeeds exactly when the mappings agree where both are defined, and then returns their union |
| Bindings.InstanceLineage | src/codex_orch/scheduler/service.py:1083-1109 | ends, meets neither a missing instance nor an ambiguous lineage, returns the map from each upstream task to its instance, and keeps a cache equal to recomputation |
| Bindings.CacheExtends | src/codex_orch/scheduler/service.py:775-775 | cached lineages stay right when instances are added |
| Bindings.TaskControlOwner | src/codex_orch/scheduler/service.py:915-930 | finds the one controller that owns the task by route or stop, or none |
| Bindings.BaseInputScopeId | src/codex_orch/scheduler/service.py:1074-1081 | finds the base scope and never raises |
| Bindings.InputScopeCanReuseBase | src/codex_orch/scheduler/service.py:932-943 | true exactly when the task is an ancestor of a seed of the scope |
| Bindings.DependencyCandidateInstances | src/codex_orch/scheduler/service.py:851-913 | returns exactly the instances that may fill a dependency: chosen by the owner, else of the scope, else reusable base ones |
| Bindings.ProductMember | src/codex_orch/scheduler/service.py:810-810 | the product has exactly the ways to take one candidate of each list |
| CandidateSearch.MergeCombination | src/codex_orch/scheduler/service.py:815-832 | a combination is refused exactly when two of its lineages differ on a task; merging activation bindings never refuses |
| CandidateSearch.ActivationsAgree | src/codex_orch/scheduler/service.py:825-830 | once lineages agree the activation bindings agree |
| CandidateSearch.OwnerAgrees | src/codex_orch/scheduler/service.py:839-847 | the conflict check for the owner never fires on a combination that passed the lineage merge |
| CandidateSearch.TryCombination | src/codex_orch/scheduler/service.py:811-848 | keeps a combination exactly when it is one instance a task and hangs on the scope, with the merged activation bindings |
| CandidateSearch.CandidateInstanceBindings | src/codex_orch/scheduler/service.py:780-849 | every binding found is valid and every valid binding is found |
| ProjectStore.Store.CreateInterrupt | src/codex_orch/store/project_store.py:552-607 | adds an open interrupt under a new identifier, with its event |
| ProjectStore.Store.SaveInterruptReply | src/codex_orch/store/project_store.py:629-682 | stores the reply and marks the interrupt resolved whatever its status was; fails exactly on an unknown interrupt |
| ProjectStore.Store.ListInstanceInterrupts | src/codex_orch/store/project_store.py:822-837 | lists each interrupt of the instance once, the blocking ones alone when asked |
| RunService.Run.constructor | src/codex_orch/scheduler/service.py:76-117 | a new run has its base scope, without seeds, values, parent or creator, no instance, and two events |
| RunService.Run.CreateScope | src/codex_orch/scheduler/service.py:1047-1070 | opens the next scope for a done controller instance that said continue: its seeds are the continue targets, and it holds every entry of the next inputs that were stored and, for all other keys, what the parent scope holds |
| RunService.Run.CreateInstance | src/codex_orch/scheduler/service.py:755-774 | adds a pending instance for a valid binding with an unused key |
| RunService.Run.SyncInputScopes | src/codex_orch/scheduler/service.py:1021-1072 | afterwards every done controller instance that said continue owns a scope; reports exactly whether one was missing |
| RunService.Run.SyncTask | src/codex_orch/scheduler/service.py:742-776 | creates the instance of every binding valid at the visit and no other; creates nothing exactly when all were there; the iteration stays free of early bindings exactly if the guard did not hold |
| RunService.Run.SyncScope | src/codex_orch/scheduler/service.py:740-776 | visits the tasks in the order of their identifiers and leaves an iteration where the rehearsal of these visits says; with loops that this order suits, whatever lies between seeds is made anew before it is needed |
| RunService.Run.SyncPass | src/codex_orch/scheduler/service.py:731-776 | the same over all tasks and scopes, with the lineage cache kept right |
| RunService.Run.SyncInstances | src/codex_orch/scheduler/service.py:727-778 | ends on every valid run; then every continuing controller has its scope and every valid binding its instance; on a closed run it changes nothing; an iteration it opens with all its seeds depend on in the base scope ends with an early binding, and with two instances of some task if no controller decides between its seeds, exactly if the order of visits does not suit it |
| RunService.Run.RefreshInstanceInterrupts | src/codex_orch/scheduler/service.py:630-645 | returns the open blocking interrupts of the instance |
| RunService.Run.AllDependenciesSatisfied | src/codex_orch/scheduler/service.py:697-714 | true exactly when every dependency is done and has published what is consumed |
| RunService.Run.AnyDependencyFailed | src/codex_orch/scheduler/service.py:716-725 | true exactly when some dependency is failed or skipped |
| RunService.Run.VisitInstance | src/codex_orch/scheduler/service.py:647-695 | a visit skips an instance that is pending or was skipped for upstream exactly if a dependency has failed or is skipped, makes it ready exactly if none has and all are done with what it consumes, lets a waiting one go on exactly if no open interrupt blocks it, and changes no other instance |
| StepOutcomes.RefreshOutcome | src/codex_orch/scheduler/service.py:647-695 | the same of the step, from any state, with what it reports: resumed for an instance that waited, runnable for another one |
| RunService.Run.RefreshedInstance | src/codex_orch/scheduler/service.py:649-695 | computes the instance and the event of one visit, as StepOutcomes.RefreshOutcome describes them |
| RunService.Run.RefreshRunnableInstances | src/codex_orch/scheduler/service.py:647-695 | after one sweep in any order no instance is pending whose dependency has failed, and each instance is swept: waiting only with an open blocking interrupt, pending only with unsatisfied dependencies, skipped for upstream only with an unfinished dependency |
| RunSteps.RefreshSweeps | src/codex_orch/scheduler/service.py:647-695 | a visit leaves the visited instance swept and keeps swept those visited before |
| RunService.Run.FinalizeRunState | src/codex_orch/scheduler/service.py:1123-1137 | running is reported exactly if some instance runs; failed, if none runs and some failed; waiting, if none of these and some waits; pending, if none of these and some is runnable or pending; done, if all are done or skipped |
| RunProgress.StatusReports | src/codex_orch/scheduler/service.py:1123-1137 | so it is for every set of instances |
| RunService.Run.CreateInterrupt | src/codex_orch/store/project_store.py:552-607 | asks for help on behalf of a known instance; refuses unknown ones and then changes nothing |
| RunService.Run.SaveReply | src/codex_orch/store/project_store.py:629-682 | records a reply to a known interrupt as one step |
| RunService.Run.MarkResolvedInterruptsApplied | src/codex_orch/scheduler/service.py:624-628 | exactly the resolved interrupts of the instance become applied; all others stay |
| RunService.Run.BeginAttempt | src/codex_orch/scheduler/service.py:331-398 | begins exactly if the instance is runnable: it runs, with the next attempt number and no trace of an earlier failure, and the worker is given that number and the session to go on with; otherwise nothing changes |
| RunService.Run.MaterializeInstanceResult | src/codex_orch/scheduler/service.py:1427-1529 | stores an acceptable result with its route and loop events, removes the result when none is needed or the document is null, refuses a missing, malformed or invalid one |
| StepOutcomes.MaterializeOutcome | src/codex_orch/scheduler/service.py:1427-1529 | a document is refused exactly if it is missing though the task is a controller, has a result schema or publishes it, cannot be parsed, or holds no control its controller may emit; otherwise its payload is stored as it is, and the events tell of each route whether its label was emitted, or whether the loop goes on |
| RunService.Run.PromoteArtifacts | src/codex_orch/scheduler/service.py:1401-1425 | publishes all declared files or names the first that was not produced |
| RunService.Run.CheckDecisionObligations | src/codex_orch/scheduler/service.py:1177-1214 | returns the required decisions for which no blocking interrupt was ever created |
| StepOutcomes.MissingAre | src/codex_orch/scheduler/service.py:1177-1214 | these are the required decisions for which nobody in their audience was asked in a blocking way |
| RunService.Run.FinishAttempt | src/codex_orch/scheduler/service.py:417-528 | an attempt ends after the replies its session has seen were marked applied, exactly when there was a session. Blocked, the instance waits. Else an unsuccessful one is recorded as failed, with the kind, summary, error and termination returned or their defaults, and with resuming recommended exactly if the result recommended it; a successful one is failed without recommendation for a refused document, the first lost file or the decisions nobody was asked for, in this order, or else is done with its files and its document |
| RunService.Run.ReconcileFinishedRuntime | src/codex_orch/scheduler/service.py:1216-1296 | the same of an attempt found finished, except that only a completed one can wait |
| StepOutcomes.FinishOutcome | src/codex_orch/scheduler/service.py:417-509 | from any state with an attempt in flight its end leaves its instance and its result so, and all other instances and results as they were |
| StepOutcomes.RecoverOutcome | src/codex_orch/scheduler/service.py:1216-1296 | the same by recovery |
| StepOutcomes.ConcludedOutcome | src/codex_orch/scheduler/service.py:430-487 | what becomes of a completed attempt that waits for nobody: the document decides first, then the files, then the decisions |
| StepOutcomes.FinishReports | src/codex_orch/scheduler/service.py:417-528 | an ending in process logs what the document decided, if it was accepted, then whether the instance waits, is done or failed, then that the attempt has finished |
| StepOutcomes.RecoverReports | src/codex_orch/scheduler/service.py:1216-1296 | an ending by recovery logs the same of the document, and else a failure only |
| StepOutcomes.ObservedOutcome | src/codex_orch/scheduler/service.py:142-200 | what recovery makes of a running instance for each observation; only a finished record can recommend resuming |
| StepOutcomes.RetriedIffRecommended | src/codex_orch/scheduler/service.py:1310-1333 | after an attempt has ended in process, resuming makes its instance runnable exactly if nothing blocked it, it was unsuccessful and its result recommended resuming |
| StepOutcomes.RecoveredRetriedIff | src/codex_orch/scheduler/service.py:1310-1333 | after recovery exactly if the record is not of a completed attempt and recommends resuming |
| StepOutcomes.AbortedNotRetried | src/codex_orch/scheduler/service.py:207-249 | resuming leaves what abort has ended as it is |
| RunService.Run.RecoverInstances | src/codex_orch/scheduler/service.py:142-200 | each running instance is decided by what is observed of it, as if it were the only one; all others stay |
| RunService.Run.ReconcileRun | src/codex_orch/scheduler/service.py:137-205 | recovery, then sync and one sweep; only what was said to run still runs, no instance waits for a failed one, and the status tells what instances there are |
| RunService.Run.AbortRun | src/codex_orch/scheduler/service.py:207-249 | what is pending or runnable is skipped, what is running or waiting fails, both as aborted and without recommending to resume; the rest and the store stay, and the run is failed |
| RunService.Run.RequeueRecoverableInstances | src/codex_orch/scheduler/service.py:1310-1333 | exactly the failed instances whose failure recommends it become runnable, with their attempt number and session and no trace of the failure; reports whether there was one |
| RunService.Run.ResumeRun | src/codex_orch/scheduler/service.py:251-265 | after recovery, sync and a sweep it starts nothing if something was said to be still running; otherwise every failed instance whose failure recommends it is requeued, and the loop goes on; when it returns, no instance waits for a failed one, the status tells what instances there are, and the run is at rest unless something runs; without loops it ends within tasks plus replies rounds |
| RunService.Run.ForceRetryInstance | src/codex_orch/scheduler/service.py:267-294 | refuses unknown and not failed instances, changing nothing; otherwise makes the instance runnable and resumes |
| RunService.Run.TakeReplies | src/codex_orch/store/project_store.py:629-682 | of the replies that came, in order, those to known interrupts are saved and the others refused |
| RunService.Run.EndOne | src/codex_orch/scheduler/service.py:398-528 | an attempt ends with the requests of its worker, then replies marked as seen, then its end with what the worker returned and left |
| Episodes.AttemptIsCount | src/codex_orch/scheduler/service.py:348-396 | the number of an attempt in flight is how many attempts of its instance the history has begun |
| RunService.Run.TakeTurn | src/codex_orch/scheduler/service.py:314-329 | one event of a round, replies arriving before it, keeps within the concurrency limit and brings the round nearer to its end; every ending is that of its own worker and every reply saved one that came |
| RunService.Run.ExecuteRound | src/codex_orch/scheduler/service.py:314-320 | a round begins an attempt of exactly the given instances and ends with nothing in flight; each attempt ends with what the worker of this attempt asked for, returned and left |
| RunService.Run.NextRound | src/codex_orch/scheduler/service.py:297-320 | one turn of the loop: the run is brought to its closed and swept state; then either nothing is runnable and it returns, or an attempt is begun of exactly what is runnable there, and each ends as its worker did |
| RunService.Run.RunSnapshot | src/codex_orch/scheduler/service.py:296-320 | when it returns the run is at rest and closed, no instance waits for a failed one, and the status is running, failed, waiting, pending or done by the instances there are; of a run never aborted, done is reported exactly when every instance is done; every attempt ends with what its own worker asked for, returned and left; in no stretch without a reply is an instance attempted twice, and attempts are at most instances plus replies; it returns within tasks plus replies rounds without loops, and within tasks times scopes plus replies rounds when the order of visits suits the loops |
| RunProgress.Blame | src/codex_orch/scheduler/service.py:296-320 | at rest, every instance not done has upstream, or is itself, one that failed, waits, runs, was aborted, or consumes a file that its upstream task never publishes |
| RunProgress.DoneMeansDone | src/codex_orch/scheduler/service.py:1123-1137 | at rest and never aborted, the run is reported done exactly when every instance is done |
| RunProgress.ReportedDoneIff | src/codex_orch/scheduler/service.py:1123-1137 | at rest, aborted or not, it is reported done exactly when every instance is done or is skipped and has upstream, or is itself, one that an abort skipped |
| RunProgress.AbortedStays | src/codex_orch/scheduler/service.py:647-695 | what an abort has skipped stays skipped along every later run |
| Scenarios.AbortedButDone | src/codex_orch/scheduler/service.py:207-265 | a new run of one task, aborted and resumed, is reported done with its task skipped |
| RunProgress.PublishedEnough | src/codex_orch/scheduler/service.py:703-713 | a done dependency satisfies its edge exactly when all consumed files are published by its task |
| RunProgress.StarvedNeverReady | src/codex_orch/scheduler/service.py:710-713 | in no reachable state does a task become ready that consumes a file its upstream task does not publish |
| RunProgress.NeverBegunTwice | src/codex_orch/scheduler/service.py:331-337 | from any reachable state on, two attempts begun while nobody replies are attempts of different instances |
| RunProgress.BegunOnce | src/codex_orch/scheduler/service.py:331-337 | the same said of the whole sequence of begun attempts |
| RunSteps.AttemptedOnce | src/codex_orch/scheduler/service.py:331-337 | and of every stretch without a reply of the history of a run |
| RunProgress.AttemptsBounded | src/codex_orch/scheduler/service.py:296-320 | the loop begins at most one attempt for each instance there is in the end and each reply saved meanwhile |
| RunProgress.InstancesWithoutLoops | src/codex_orch/scheduler/service.py:1021-1072 | without loop controllers there are at most as many instances as tasks |
| RunProgress.InstancesTimesScopes | src/codex_orch/scheduler/service.py:739-776 | with antichain seeds, or when nothing between seeds is taken from the base scope, there are never more instances than tasks times scopes |
| RunProgress.RunWithoutAbort | src/codex_orch/scheduler/service.py:232-237 | only abort skips an instance as aborted |
| RunTheorems.DependencySafety | src/codex_orch/scheduler/service.py:697-714 | in every reachable state an instance that is or was ready has everything upstream done and all it consumes published |
| RunTheorems.DoneIsFinal | src/codex_orch/scheduler/service.py:137-294 | along every run a done instance stays done with the same published files and result |
| RunTheorems.ResultsOfDoneOnly | src/codex_orch/scheduler/service.py:1427-1491 | results are stored for done instances only, and the one stored for a controller has a readable control |
| RunProgress.SilentControllerIff | src/codex_orch/scheduler/service.py:1434-1446 | a controller ends done with no stored result, in process and by recovery, exactly when its result document is null, nothing blocks it, its files were produced, its decisions asked for, and the attempt completed |
| RunTheorems.SilentChoosesNothing | src/codex_orch/scheduler/service.py:961-1072 | a done instance with no stored result opens no scope, and no instance it would decide about is bound to it, now and along every later run |
| RunTheorems.DecisionsSettled | src/codex_orch/scheduler/service.py:1177-1214 | a done instance has, now and ever after, for each required decision a matching blocking interrupt with a reply |
| RunTheorems.AnsweredStaysAnswered | src/codex_orch/store/project_store.py:629-699 | an interrupt that was answered is never open again |
| RunTheorems.BranchChosen | src/codex_orch/scheduler/service.py:869-890 | an owned instance is bound, in its own scope, to a done controller instance that chose it, and the choice stands along every later run |
| RunTheorems.RouteLabelEmitted | src/codex_orch/scheduler/service.py:961-980 | a route target exists only under a label its controller instance emitted |
| ClosedRuns.BranchTakenIff | src/codex_orch/scheduler/service.py:961-980 | in a closed run the target of a route has a base instance exactly when a base instance of the controller emitted the label of that route, alone or among others, and everything else the target depends on has one |
| ClosedRuns.StopTakenIff | src/codex_orch/scheduler/service.py:982-1003 | the same of each stop target and a controller instance that said stop |
| ClosedRuns.ServedIsInstantiated | src/codex_orch/scheduler/service.py:780-913 | in a closed run, whatever instances can serve a task in a scope, chosen by the stored result of its controller if it has one, and agree on what is upstream, the task has its instance there bound to them |
| ClosedRuns.ContinueOpensIff | src/codex_orch/scheduler/service.py:1021-1072 | in a closed run an instance of a loop controller has its next scope exactly if its stored result says continue |
| RunTheorems.LoopEndsOrContinues | src/codex_orch/scheduler/service.py:982-1072 | a loop controller instance owns at most one scope, and no stop target is bound to one that owns a scope |
| RunTheorems.ScopesFormTree | src/codex_orch/scheduler/service.py:1047-1058 | every scope is reached from the base scope by parent links |
| RunTheorems.ScopeHoldsPathInputs | src/codex_orch/scheduler/service.py:1052-1055 | the values of a scope are what the iterations from the base scope to it have added, later ones over earlier ones |
| RunTheorems.ScopeInputs | src/codex_orch/scheduler/service.py:1047-1058 | in every reachable state a scope other than the base was opened by a done loop controller instance of its parent scope whose stored control says continue; its seeds are the continue targets; it holds every entry of the stored next inputs and, for all other keys, what its parent holds |
| RunTheorems.NextIterationReads | src/codex_orch/scheduler/service.py:1052-1055 | a key that the worker wrote, without the blanks around it, has in the next iteration the last value written for it |
| Composer.InputsAgree | src/codex_orch/scheduler/composer.py:233-257 | the prompt finds exactly the user inputs overlaid by the inputs of each iteration on the path, which is also what the scheduler fills in |
| RunTheorems.AttemptsNumbered | src/codex_orch/scheduler/service.py:348-396 | the log has the attempts of an instance numbered from one, each once, and what is in flight is the last of them |
| RunTheorems.InFlightRun | src/codex_orch/scheduler/service.py:331-528 | under every interleaving without a crash, an attempt is in flight exactly for the running instances |
| RunProgress.EndsDoneIff | src/codex_orch/scheduler/service.py:417-509 | an attempt ends done exactly when nothing blocks it, it succeeded, its result is acceptable, its files were produced and its decisions were asked for, whatever the status of the instance was |
| RunProgress.RecoveryAgrees | src/codex_orch/scheduler/service.py:1216-1285 | a completed attempt ends alike in process and by recovery, though only the former has applied resolved interrupts |
| RunProgress.RecoveryStatusAgreesIff | src/codex_orch/scheduler/service.py:1230-1296 | the two give the same status exactly when the attempt completed or nothing blocks the instance |
| Runner.EndingsAgreeIff | src/codex_orch/runner/codex_exec.py:243-332 | from any reachable state with an attempt in flight, ending it in process and crashing and recovering it leave the same instance, up to session and open interrupts, and the same result exactly if the worker was started, and completed or nothing blocks the instance |
| Runner.RecoveryReportsNoEnd | src/codex_orch/scheduler/service.py:1216-1308 | ending in process reports the end of the attempt and whether the instance waits or is done; recovery reports none of that |
| Runner.RecordsAgree | src/codex_orch/runner/codex_exec.py:301-332 | of a worker that ran, the returned result and the written record tell the same; of one that did not, there is no finished record |
| Runner.ResultTells | src/codex_orch/runner/codex_exec.py:253-332 | the result tells the reason of the watchdog or else the exit, and the classified failure exactly of a worker that did not complete |
| Runner.WorkerRetriedIff | src/codex_orch/runner/codex_exec.py:279-332 | whether resuming retries an attempt is up to the classified failure of a worker that ran and did not complete, and in process also to whether its instance waits |
| ClosedRuns.BaseInstanceIff | src/codex_orch/scheduler/service.py:780-849 | in a closed run a task has a base instance exactly when each dependency has one that admits it |
| ClosedRuns.UncontrolledAllPresent | src/codex_orch/scheduler/service.py:727-778 | so every task that no controller decides about, directly or upstream, has its base instance |
| ClosedRuns.SeedInstanceIff | src/codex_orch/scheduler/service.py:891-913 | with antichain seeds a seed is instantiated in its scope exactly when the base scope has all it depends on |
| ClosedRuns.IterationStarts | src/codex_orch/scheduler/service.py:1047-1058 | in the first iteration of a loop whose controller ran in the base scope, and in every iteration that continues it, each seed has its instance |
| ClosedRuns.StarvedNeverStarts | src/codex_orch/scheduler/service.py:891-913 | a seed that depends on a task which its done controller did not choose in the base scope has no instance in any iteration, now and along every later run |
| Scenarios.StarvedSeed | src/codex_orch/scheduler/service.py:891-913 | a run that gets there: a second loop goes on behind the stop target of a first one that went on in the base scope |
| StreamLines.IterStreamLines | src/codex_orch/runner/codex_exec.py:191-205 | the lines join to the bytes read, none is empty, a newline is only ever last, and only the final line may lack it |
| StreamLines.LinesUnique | src/codex_orch/runner/codex_exec.py:191-205 | a sequence of bytes has only one division into such lines |
| StreamLines.ChunkingIrrelevant | src/codex_orch/runner/codex_exec.py:191-205 | so two chunkings of the same bytes give the same lines |
| StreamLines.BytesReadIs | src/codex_orch/runner/codex_exec.py:191-205 | what is read is all chunks before the first empty one |
| StreamLines.CaptureStdout | src/codex_orch/runner/codex_exec.py:452-472 | the captured output is what was read; the message is that of the last line that carries one, or empty if none does, whatever lines come after; both it and the line count depend on the output alone |

## Left out

- RunService.Run.RunSnapshot: takes the number of rounds it may last, because a loop controller that always continues keeps the source's loop going for ever; the bounds say when the number is large enough. Another loop over the same run cannot have attempts in flight meanwhile.
- RunService.Run.ResumeRun: takes the same number and passes it on; nothing is in flight when it is called.
- RunService.Run.ForceRetryInstance: what the resume leaves is said by the contract of ResumeRun alone.
- RunService.Run.TakeTurn: an instance that another loop has taken over in the meantime does not occur.
- RunService.Run.ExecuteRound: likewise; it begins an attempt of each given instance.
- RunService.Run.NextRound: is called with nothing in flight.
- RunService.Run.ReconcileFinishedRuntime: is called with no attempt of this process in flight; the source would accept one under its lock.
- RunService.Run.RecoverInstances: likewise.
- RunService.Run.ReconcileRun: likewise.
- RunService.Run.AbortRun: likewise, and ending the worker's process is no part of it.
- RunService.Run.SaveReply: replies that fail validation against a reply schema or a handoff rule are not modelled.
- ProjectStore.Store.SaveInterruptReply: likewise.
- ProjectStore.Store.CreateInterrupt: the refusal of unknown instances is that of RunService.Run.CreateInterrupt.
- TaskPool.ValidateDependenciesExist: the mode that allows dependencies outside the set is not modelled.
- TaskPool.ValidateTaskGraph: the check of `compose` references is not modelled.
- RunService.CreateSnapshot: the checks of `compose`, workspace and user inputs, which can also fail, are not modelled.
- ControlEnvelope.ValidateControl: that values of next_inputs are JSON values is given by their type.
- StreamLines.CaptureStdout: which lines carry a message is a parameter, the session identifier is not extracted, and lines stay bytes.
- RunProgress.RecoveryStatusAgreesIff: is about results that name a termination reason; the one that does not is covered by Runner.EndingsAgreeIff.
- RunService.Run.SyncInstances: what becomes of an iteration it opens is decided by the order of visits where the base scope has all that the seeds depend on, as it has for every iteration of a loop that started there.
- SeedOrder.DoubledIff: is about iterations in which nothing has ended and no controller decides about a task between the seeds.
- ClosedRuns.SeedInstanceIff: is about antichain seeds; for nested seeds an instance may also be bound within the iteration.
- Instance, scope and interrupt records are values in maps: each locked body of the source loads the run, changes its own copy and saves it, so no two of them share a record.
- Writers in other processes, and the assistant's writes to the store while an attempt is live.
- A crash in the middle of a locked body or of the runner's own writes, exceptions from rendering a prompt or creating directories when an attempt begins, and failures of the file system.
- JSON values and messages are opaque text; errors are kept by the case that produced them, not by their wording.
- JSON schema validation of results and replies, relative-path and workspace checks, and the field validation of task files.
- Decoding the worker's bytes as UTF-8, and the JSON that the runner reads out of single lines.
- Timestamps, process ids, watchdogs and signals: recovery's findings about a process are a parameter.
- Proposals, assistant roles, handoff to a human, presets, the command line and the web application: they act on a run only through the steps modelled here.
- start_run, which is create_snapshot followed by run_snapshot.
