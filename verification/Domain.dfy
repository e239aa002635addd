// The records of a run: tasks as authored, and what the scheduler keeps about them.
module Domain {

  datatype Option<+T> = None | Some(value: T)

  datatype Result<+T> = Ok(value: T) | Error(message: string)

  type TaskId = string
  type InstanceId = nat
  type ScopeId = nat
  type InterruptId = nat
  type Path = string
  // A JSON value, by its text.
  type Json = string

  // ---------- tasks ----------

  datatype DependencyKind = Context | Order

  datatype Dependency = Dependency(task: TaskId, kind: DependencyKind, consume: seq<Path>)

  datatype Route = Route(name: string, targets: seq<TaskId>)

  datatype TaskControl =
    | RouteMode(routes: seq<Route>)
    | LoopMode(continueTargets: seq<TaskId>, stopTargets: seq<TaskId>)

  datatype DecisionKind = Policy | ScopeChoice | Naming | Sequencing | Recovery | Review

  datatype Audience = Assistant | Human

  datatype RequiredAudience = Only(audience: Audience) | AnyAudience

  datatype RequiredDecision = RequiredDecision(decision: DecisionKind, audience: RequiredAudience)

  // A task is a controller exactly when it declares control.
  datatype Task = Task(
    labels: set<string>,
    dependsOn: seq<Dependency>,
    control: Option<TaskControl>,
    publish: seq<Path>,
    hasResultSchema: bool,
    requiredDecisions: seq<RequiredDecision>)

  type Tasks = map<TaskId, Task>

  // ---------- input scopes and instances ----------

  // One iteration of the run. Only the base scope has neither parent nor creator.
  datatype InputScope = InputScope(
    parent: Option<ScopeId>,
    seeds: seq<TaskId>,
    values: map<string, Json>,
    creator: Option<InstanceId>)

  const BASE: ScopeId := 0

  const BASE_SCOPE := InputScope(None, [], map[], None)

  // The four fields of an instance that are fixed when it is created.
  datatype Binding = Binding(
    task: TaskId,
    scope: ScopeId,
    deps: map<TaskId, InstanceId>,
    activation: map<TaskId, InstanceId>)

  type Graph = map<InstanceId, Binding>

  datatype Status = Pending | Runnable | Running | Waiting | Done | Failed | Skipped

  datatype RunStatus = RunPending | RunRunning | RunWaiting | RunDone | RunFailed

  datatype Termination = Completed | NonzeroExit | WallTimeout | IdleTimeout | Terminated | Orphaned

  datatype FailureKind =
    | ExternalAuth | ExternalNetwork | ExternalProtocol | OutputSchema
    | RunnerInvocation | TaskRuntime | DecisionObligation | UnknownFailure

  // Why an instance is not done, by the case of the code that says so.
  datatype Problem =
    | UpstreamFailed
    | AbortedByUser
    | RepliesPending
    | ResultMissing
    | ResultMalformed
    | ControlInvalid
    | NotProduced(path: Path)
    | DecisionsMissing(missing: seq<RequiredDecision>)
    | ExecFailed
    | EndedBy(reason: Termination)
    | RuntimeMissing
    | WorkerGone
    | Reported(text: string)

  datatype Instance = Instance(
    binding: Binding,
    status: Status,
    waitingForReplies: bool,
    published: seq<Path>,
    error: Option<Problem>,
    attempt: nat,
    session: Option<string>,
    blocking: set<InterruptId>,
    termination: Option<Termination>,
    failureKind: Option<FailureKind>,
    failureSummary: Option<Problem>,
    resumeRecommended: bool)

  function NewInstance(binding: Binding): Instance {
    Instance(binding, Pending, false, [], None, 0, None, {}, None, None, None, false)
  }

  // ---------- interrupts ----------

  datatype InterruptStatus = Open | Resolved | Applied

  datatype Interrupt = Interrupt(
    instance: InstanceId,
    blocking: bool,
    decision: Option<DecisionKind>,
    audience: Audience,
    status: InterruptStatus)

  datatype Reply = Reply(audience: Audience, handoff: bool, text: string)

  // ---------- helpers ----------

  // The distinct values of a sequence.
  function Elements<T(!new)>(s: seq<T>): (r: set<T>)
    ensures forall x :: x in s <==> x in r
  {
    set x | x in s
  }

  ghost predicate NoDuplicates<T>(s: seq<T>) {
    forall j, k :: 0 <= j < k < |s| ==> s[j] != s[k]
  }
}
