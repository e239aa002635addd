// One run as a state machine: what is stored, and what each step does to it.
module RunState {
  import opened Domain
  import opened TaskGraph
  import opened InstanceGraph
  import opened ControlEnvelope

  // ---------- what an attempt leaves behind ----------

  // A document that is just null reads like no document at all.
  datatype ResultFile = NoResult | Malformed | JsonNull | Parsed(payload: Payload)

  datatype AttemptDir = AttemptDir(result: ResultFile, files: set<Path>)

  const RESULT_FILE := "result.json"

  // What the runner returns to the scheduler.
  datatype NodeResult = NodeResult(
    success: bool,
    returnCode: int,
    session: Option<string>,
    error: Option<string>,
    termination: Option<Termination>,
    failureKind: Option<FailureKind>,
    failureSummary: Option<string>,
    resumeRecommended: bool)

  // What the runner leaves on disk for recovery.
  datatype Runtime = Runtime(
    returnCode: Option<int>,
    termination: Option<Termination>,
    failureKind: Option<FailureKind>,
    failureSummary: Option<string>,
    resumeRecommended: bool)

  // An attempt in flight.
  datatype Request = Request(attempt: nat, resumeSession: Option<string>)

  datatype Event =
    | RunCreated
    | ScopeCreated(scope: ScopeId)
    | InstanceCreated(id: InstanceId)
    | BecameRunnable(id: InstanceId)
    | Resumed(id: InstanceId)
    | AttemptStarted(id: InstanceId, attempt: nat)
    | AttemptFinished(id: InstanceId, attempt: nat)
    | BeganWaiting(id: InstanceId)
    | BecameDone(id: InstanceId)
    | BecameFailed(id: InstanceId)
    | Requeued(id: InstanceId)
    | ResultStored(id: InstanceId)
    | ControlEmitted(id: InstanceId)
    | RouteDecided(id: InstanceId, route: string, selected: bool)
    | LoopDecided(id: InstanceId, continued: bool)
    | Requested(interrupt: InterruptId)
    | WasResolved(interrupt: InterruptId)
    | WasApplied(interrupt: InterruptId)

  datatype State = State(
    tasks: Tasks,
    userInputs: map<string, Json>,
    scopes: map<ScopeId, InputScope>,
    instances: map<InstanceId, Instance>,
    results: map<InstanceId, Payload>,
    interrupts: map<InterruptId, Interrupt>,
    replies: map<InterruptId, Reply>,
    log: seq<Event>,
    live: map<InstanceId, Request>)

  ghost function GraphOf(instances: map<InstanceId, Instance>): Graph {
    map i | i in instances :: instances[i].binding
  }

  // ---------- control ----------

  function ControlOf(tasks: Tasks, t: TaskId, results: map<InstanceId, Payload>, x: InstanceId): Option<Control> {
    if t in tasks && x in results then ControlFor(tasks[t], results[x]) else None
  }

  // The stored control of x activates its target t in x's own scope.
  predicate Activates(task: Task, control: Option<Control>, t: TaskId) {
    control.Some? &&
    match task.control
    case None => false
    case Some(RouteMode(routes)) =>
      control.value.kind == RouteKind &&
      exists k :: 0 <= k < |routes| && routes[k].name in control.value.labels && t in routes[k].targets
    case Some(LoopMode(_, stops)) =>
      control.value.kind == LoopKind && control.value.action == Some(Stop) && t in stops
  }

  predicate Selects(tasks: Tasks, g: Graph, results: map<InstanceId, Payload>, x: InstanceId, t: TaskId) {
    x in g && g[x].task in tasks &&
    Activates(tasks[g[x].task], ControlOf(tasks, g[x].task, results, x), t)
  }

  // The stored control of x asks for another iteration.
  predicate Continues(tasks: Tasks, g: Graph, results: map<InstanceId, Payload>, x: InstanceId) {
    x in g && g[x].task in tasks &&
    tasks[g[x].task].control.Some? && tasks[g[x].task].control.value.LoopMode? &&
    var control := ControlOf(tasks, g[x].task, results, x);
    control.Some? && control.value.kind == LoopKind && control.value.action == Some(Continue)
  }

  function NextInputs(tasks: Tasks, g: Graph, results: map<InstanceId, Payload>, x: InstanceId): map<string, Json>
    requires Continues(tasks, g, results, x)
  {
    AsMap(ControlOf(tasks, g[x].task, results, x).value.nextInputs)
  }

  // ---------- candidate bindings ----------

  ghost predicate HasInScope(g: Graph, d: TaskId, s: ScopeId) {
    exists y :: y in g && g[y].task == d && g[y].scope == s
  }

  // Instance x may serve as dependency d of task t in scope s.
  ghost predicate MayFill(tasks: Tasks, scopes: map<ScopeId, InputScope>, g: Graph, results: map<InstanceId, Payload>,
                          t: TaskId, s: ScopeId, d: TaskId, x: InstanceId)
    requires s in scopes
  {
    x in g && g[x].task == d &&
    if ControlOwner(tasks, t) == Some(d) then g[x].scope == s && Selects(tasks, g, results, x, t)
    else if HasInScope(g, d, s) then g[x].scope == s
    else s != BASE && g[x].scope == BASE && CanReuseBase(tasks, scopes, s, d)
  }

  // A valid binding of task t in scope s.
  ghost predicate IsCandidate(tasks: Tasks, scopes: map<ScopeId, InputScope>, g: Graph,
                              results: map<InstanceId, Payload>, t: TaskId, s: ScopeId, deps: map<TaskId, InstanceId>)
    requires Closed(g)
  {
    t in tasks && s in scopes && deps.Keys == DepTasks(tasks[t]) &&
    (forall d :: d in deps ==> MayFill(tasks, scopes, g, results, t, s, d, deps[d])) &&
    DepsIn(g, deps) && Anchored(scopes, g, t, s, deps) && Coherent(g, UpstreamOf(g, deps))
  }

  // The activation bindings of the dependencies, and the owner's own.
  ghost predicate MergedActivation(tasks: Tasks, g: Graph, t: TaskId, deps: map<TaskId, InstanceId>,
                                   activation: map<TaskId, InstanceId>)
    requires DepsIn(g, deps)
  {
    var owner := ControlOwner(tasks, t);
    (forall c :: c in activation <==> owner == Some(c) || exists d :: d in deps && c in g[deps[d]].activation) &&
    (forall d, c :: d in deps && c in g[deps[d]].activation ==>
      c in activation && activation[c] == g[deps[d]].activation[c]) &&
    (owner.Some? ==> owner.value in deps && owner.value in activation && activation[owner.value] == deps[owner.value])
  }

  // ---------- status ----------

  predicate DepSatisfied(instances: map<InstanceId, Instance>, deps: map<TaskId, InstanceId>, dep: Dependency) {
    dep.task in deps && deps[dep.task] in instances &&
    var upstream := instances[deps[dep.task]];
    upstream.status == Done &&
    (dep.kind == Context ==> forall p :: p in dep.consume ==> p in upstream.published)
  }

  predicate DependenciesSatisfied(task: Task, instances: map<InstanceId, Instance>, deps: map<TaskId, InstanceId>) {
    forall k :: 0 <= k < |task.dependsOn| ==> DepSatisfied(instances, deps, task.dependsOn[k])
  }

  predicate DepFailed(instances: map<InstanceId, Instance>, deps: map<TaskId, InstanceId>, dep: Dependency) {
    dep.task in deps && deps[dep.task] in instances &&
    (instances[deps[dep.task]].status == Failed || instances[deps[dep.task]].status == Skipped)
  }

  predicate DependencyFailed(task: Task, instances: map<InstanceId, Instance>, deps: map<TaskId, InstanceId>) {
    exists k :: 0 <= k < |task.dependsOn| && DepFailed(instances, deps, task.dependsOn[k])
  }

  function OpenBlocking(interrupts: map<InterruptId, Interrupt>, i: InstanceId): set<InterruptId> {
    set n | n in interrupts && interrupts[n].instance == i && interrupts[n].blocking && interrupts[n].status == Open
  }

  function Ready(inst: Instance): Instance {
    inst.(status := Runnable, waitingForReplies := false, failureKind := None, failureSummary := None,
          resumeRecommended := false)
  }

  // What one visit of the refresh sweep makes of an instance.
  function Refreshed(task: Task, instances: map<InstanceId, Instance>, interrupts: map<InterruptId, Interrupt>,
                     i: InstanceId): Instance
    requires i in instances
  {
    var seen := instances[i].(blocking := OpenBlocking(interrupts, i));
    var failed := DependencyFailed(task, instances, seen.binding.deps);
    if seen.status == Waiting then
      if seen.blocking != {} then seen.(waitingForReplies := true) else Ready(seen).(error := None)
    else if seen.status == Skipped && seen.error == Some(UpstreamFailed) && failed then seen
    else if seen.status == Pending || (seen.status == Skipped && seen.error == Some(UpstreamFailed)) then
      var pending :=
        if seen.status == Skipped then seen.(status := Pending, waitingForReplies := false, error := None) else seen;
      if failed then pending.(status := Skipped, waitingForReplies := false, error := Some(UpstreamFailed))
      else if DependenciesSatisfied(task, instances, seen.binding.deps) then Ready(pending)
      else pending
    else seen
  }

  function RefreshEvents(before: Instance, after: Instance, i: InstanceId): seq<Event> {
    if after.status != Runnable || before.status == Runnable then []
    else if before.status == Waiting then [Resumed(i)] else [BecameRunnable(i)]
  }

  // ---------- the end of an attempt ----------

  function ResultTermination(r: NodeResult): Termination {
    if r.termination.Some? then r.termination.value
    else if r.success then Completed
    else if r.returnCode < 0 then Terminated
    else NonzeroExit
  }

  function RuntimeTermination(r: Runtime): Termination {
    if r.termination.Some? then r.termination.value
    else if r.returnCode == Some(0) then Completed
    else if r.returnCode.Some? && r.returnCode.value < 0 then Terminated
    else NonzeroExit
  }

  function TerminationProblem(t: Termination): Problem {
    match t
    case WallTimeout => EndedBy(WallTimeout)
    case IdleTimeout => EndedBy(IdleTimeout)
    case Orphaned => WorkerGone
    case Terminated => EndedBy(Terminated)
    case _ => ExecFailed
  }

  // Empty text counts as no text.
  function TextOr(text: Option<string>, default: Problem): Problem {
    if text.Some? && text.value != "" then Reported(text.value) else default
  }

  function AsProblem(text: Option<string>): Option<Problem> {
    if text.Some? then Some(Reported(text.value)) else None
  }

  function KindOr(kind: Option<FailureKind>): FailureKind {
    if kind.Some? then kind.value else UnknownFailure
  }

  // Empty text counts as no summary.
  function SummaryOr(summary: Option<Problem>, error: Problem): Problem {
    if summary.Some? && summary.value != Reported("") then summary.value else error
  }

  function MarkFailed(inst: Instance, error: Problem, termination: Termination, kind: Option<FailureKind>,
                      summary: Option<Problem>, resume: bool): Instance
  {
    inst.(status := Failed, waitingForReplies := false, error := Some(error), termination := Some(termination),
          failureKind := Some(KindOr(kind)), failureSummary := Some(SummaryOr(summary, error)),
          resumeRecommended := resume)
  }

  datatype Materialization = Refused(problem: Problem) | Nothing | Keep(payload: Payload, events: seq<Event>)

  function ControlEvents(task: Task, i: InstanceId, c: Control): seq<Event> {
    match task.control
    case None => []
    case Some(RouteMode(routes)) =>
      seq(|routes|, k requires 0 <= k < |routes| => RouteDecided(i, routes[k].name, routes[k].name in c.labels))
    case Some(LoopMode(_, _)) => [LoopDecided(i, c.action == Some(Continue))]
  }

  function Materialize(task: Task, i: InstanceId, dir: AttemptDir): Materialization {
    match dir.result
    case NoResult =>
      if task.control.Some? || task.hasResultSchema || RESULT_FILE in task.publish then Refused(ResultMissing)
      else Nothing
    case Malformed => Refused(ResultMalformed)
    case JsonNull => Nothing
    case Parsed(payload) =>
      if task.control.None? then Keep(payload, [ResultStored(i)])
      else
        match ControlFor(task, payload)
        case None => Refused(ControlInvalid)
        case Some(c) => Keep(payload, [ResultStored(i), ControlEmitted(i)] + ControlEvents(task, i, c))
  }

  function FirstNotProduced(publish: seq<Path>, files: set<Path>): Option<Path> {
    if publish == [] then None
    else if publish[0] !in files then Some(publish[0])
    else FirstNotProduced(publish[1..], files)
  }

  predicate Matches(interrupt: Interrupt, i: InstanceId, r: RequiredDecision) {
    interrupt.instance == i && interrupt.blocking && interrupt.decision == Some(r.decision) &&
    (r.audience == AnyAudience || r.audience == Only(interrupt.audience))
  }

  predicate DecisionMade(interrupts: map<InterruptId, Interrupt>, i: InstanceId, r: RequiredDecision) {
    exists n :: n in interrupts && Matches(interrupts[n], i, r)
  }

  function MissingDecisions(interrupts: map<InterruptId, Interrupt>, i: InstanceId,
                            required: seq<RequiredDecision>): seq<RequiredDecision> {
    if required == [] then []
    else if DecisionMade(interrupts, i, required[0]) then MissingDecisions(interrupts, i, required[1..])
    else [required[0]] + MissingDecisions(interrupts, i, required[1..])
  }

  // The instance, its stored result and the events when an attempt has ended.
  datatype Ending = Ending(instance: Instance, result: Option<Payload>, events: seq<Event>)

  // A completed attempt that waits for nobody: keep the result, publish the files, check the decisions.
  function Concluded(task: Task, interrupts: map<InterruptId, Interrupt>, i: InstanceId, seen: Instance,
                     dir: AttemptDir): Ending {
    match Materialize(task, i, dir)
    case Refused(p) =>
      Ending(MarkFailed(seen, p, NonzeroExit, Some(TaskRuntime), Some(p), false), None, [BecameFailed(i)])
    case kept =>
      var events := if kept.Keep? then kept.events else [];
      var lost := FirstNotProduced(task.publish, dir.files);
      var missing := MissingDecisions(interrupts, i, task.requiredDecisions);
      if lost.Some? then
        var p := NotProduced(lost.value);
        Ending(MarkFailed(seen, p, NonzeroExit, Some(TaskRuntime), Some(p), false), None, events + [BecameFailed(i)])
      else
        var published := seen.(published := task.publish);
        if missing != [] then
          var p := DecisionsMissing(missing);
          Ending(MarkFailed(published, p, Completed, Some(DecisionObligation), Some(p), false), None,
            events + [BecameFailed(i)])
        else
          Ending(published.(status := Done, waitingForReplies := false, error := None, failureKind := None,
                            failureSummary := None, resumeRecommended := false),
                 if kept.Keep? then Some(kept.payload) else None, events)
  }

  function PutToWait(seen: Instance): Instance {
    seen.(status := Waiting, waitingForReplies := true, error := Some(RepliesPending))
  }

  // Finishing in process.
  function Finished(task: Task, interrupts: map<InterruptId, Interrupt>, i: InstanceId, inst: Instance,
                    stored: Option<Payload>, r: NodeResult, dir: AttemptDir): Ending
  {
    var seen := inst.(termination := Some(ResultTermination(r)), failureKind := r.failureKind,
                      failureSummary := AsProblem(r.failureSummary), resumeRecommended := r.resumeRecommended,
                      session := if r.session.Some? then r.session else inst.session,
                      blocking := OpenBlocking(interrupts, i));
    if seen.blocking != {} then Ending(PutToWait(seen), stored, [BeganWaiting(i)])
    else if r.success then
      var ending := Concluded(task, interrupts, i, seen, dir);
      if ending.instance.status == Done then ending.(events := ending.events + [BecameDone(i)]) else ending
    else
      Ending(MarkFailed(seen, TextOr(r.error, ExecFailed), ResultTermination(r), r.failureKind,
        AsProblem(r.failureSummary), r.resumeRecommended),
             None, [BecameFailed(i)])
  }

  // Finishing from the runtime record found after a crash.
  function Recovered(task: Task, interrupts: map<InterruptId, Interrupt>, i: InstanceId, inst: Instance,
                     stored: Option<Payload>, r: Runtime, dir: AttemptDir): Ending
  {
    var seen := inst.(termination := Some(RuntimeTermination(r)), failureKind := r.failureKind,
                      failureSummary := AsProblem(r.failureSummary), resumeRecommended := r.resumeRecommended);
    if RuntimeTermination(r) == Completed then
      var checked := seen.(blocking := OpenBlocking(interrupts, i));
      if checked.blocking != {} then Ending(PutToWait(checked), stored, [])
      else Concluded(task, interrupts, i, checked, dir)
    else
      Ending(MarkFailed(seen, TextOr(r.failureSummary, TerminationProblem(RuntimeTermination(r))),
        RuntimeTermination(r),
                        r.failureKind, AsProblem(r.failureSummary), r.resumeRecommended),
             None, [BecameFailed(i)])
  }

  function StoreResult(results: map<InstanceId, Payload>, i: InstanceId, r: Option<Payload>): map<InstanceId, Payload> {
    if r.Some? then results[i := r.value] else results - {i}
  }

  function StoredResult(results: map<InstanceId, Payload>, i: InstanceId): Option<Payload> {
    if i in results then Some(results[i]) else None
  }

  // ---------- steps ----------

  datatype Action =
    | NewScope(scope: ScopeId, creator: InstanceId)
    | AddInstance(id: InstanceId, binding: Binding)
    | Refresh(id: InstanceId)
    | Begin(id: InstanceId)
    | Finish(id: InstanceId, result: NodeResult, dir: AttemptDir)
    | Recover(id: InstanceId, runtime: Runtime, dir: AttemptDir)
    | GiveUp(id: InstanceId, problem: Problem, reason: Termination)
    | Abort(id: InstanceId)
    | Requeue(id: InstanceId)
    | Ask(interrupt: InterruptId, request: Interrupt)
    | Answer(interrupt: InterruptId, reply: Reply)
    | Apply(interrupt: InterruptId)
    | Crash

  ghost predicate OwnsScope(scopes: map<ScopeId, InputScope>, x: InstanceId) {
    exists s :: s in scopes && scopes[s].creator == Some(x)
  }

  // When a step may be taken. Recovery and abort assume that no attempt of this process is in flight.
  ghost predicate Enabled(st: State, a: Action) {
    var g := GraphOf(st.instances);
    match a
    case NewScope(s, x) =>
      s !in st.scopes && (forall s' :: s' in st.scopes ==> s' < s) &&
      x in st.instances && st.instances[x].status == Done && st.instances[x].binding.scope in st.scopes &&
      Continues(st.tasks, g, st.results, x) && !OwnsScope(st.scopes, x)
    case AddInstance(id, b) =>
      id !in st.instances && Closed(g) && IsCandidate(st.tasks, st.scopes, g, st.results, b.task, b.scope, b.deps) &&
      (forall d :: d in b.deps ==> b.deps[d] < id) &&
      (forall i :: i in g ==> !SameKey(g[i], b)) &&
      MergedActivation(st.tasks, g, b.task, b.deps, b.activation)
    case Refresh(i) => i in st.instances && st.instances[i].binding.task in st.tasks
    case Begin(i) => i in st.instances && st.instances[i].status == Runnable
    case Finish(i, _, _) => i in st.live && i in st.instances && st.instances[i].binding.task in st.tasks
    case Recover(i, _, _) =>
      st.live == map[] && i in st.instances && st.instances[i].status == Running &&
      st.instances[i].binding.task in st.tasks
    case GiveUp(i, _, _) => st.live == map[] && i in st.instances && st.instances[i].status == Running
    case Abort(i) => st.live == map[] && i in st.instances && st.instances[i].status !in {Done, Skipped, Failed}
    case Requeue(i) => i in st.instances && st.instances[i].status == Failed
    case Ask(n, request) => n !in st.interrupts && request.instance in st.instances && request.status == Open
    case Answer(n, _) => n in st.interrupts
    case Apply(n) => n in st.interrupts && st.interrupts[n].status == Resolved
    case Crash => true
  }

  ghost function ChildScope(st: State, x: InstanceId): InputScope
    requires x in st.instances && Continues(st.tasks, GraphOf(st.instances), st.results, x)
    requires st.instances[x].binding.scope in st.scopes
  {
    var b := st.instances[x].binding;
    InputScope(Some(b.scope), ContinueTargets(st.tasks[b.task]),
               st.scopes[b.scope].values + NextInputs(st.tasks, GraphOf(st.instances), st.results, x), Some(x))
  }

  function Begun(inst: Instance): Instance {
    inst.(status := Running, waitingForReplies := false, error := None, failureKind := None, failureSummary := None,
          resumeRecommended := false, attempt := inst.attempt + 1, termination := None)
  }

  function Aborted(inst: Instance): Instance {
    inst.(status := if inst.status == Pending || inst.status == Runnable then Skipped else Failed,
          error := Some(AbortedByUser), waitingForReplies := false, termination := Some(Terminated),
          failureKind := Some(UnknownFailure), failureSummary := Some(AbortedByUser), resumeRecommended := false)
  }

  function Retried(inst: Instance): Instance {
    inst.(status := Runnable, waitingForReplies := false, error := None, termination := None, failureKind := None,
          failureSummary := None, resumeRecommended := false)
  }

  function SetInstance(st: State, i: InstanceId, inst: Instance, events: seq<Event>): State {
    st.(instances := st.instances[i := inst], log := st.log + events)
  }

  function SetEnding(st: State, i: InstanceId, ending: Ending, more: seq<Event>): State {
    st.(instances := st.instances[i := ending.instance], results := StoreResult(st.results, i, ending.result),
        log := st.log + ending.events + more)
  }

  ghost function Next(st: State, a: Action): State
    requires Enabled(st, a)
  {
    match a
    case NewScope(s, x) => st.(scopes := st.scopes[s := ChildScope(st, x)], log := st.log + [ScopeCreated(s)])
    case AddInstance(id, b) => SetInstance(st, id, NewInstance(b), [InstanceCreated(id)])
    case Refresh(i) =>
      var after := Refreshed(st.tasks[st.instances[i].binding.task], st.instances, st.interrupts, i);
      SetInstance(st, i, after, RefreshEvents(st.instances[i], after, i))
    case Begin(i) =>
      var inst := Begun(st.instances[i]);
      SetInstance(st, i, inst, [AttemptStarted(i, inst.attempt)])
        .(live := st.live[i := Request(inst.attempt, inst.session)])
    case Finish(i, r, dir) =>
      var inst := st.instances[i];
      var ending := Finished(st.tasks[inst.binding.task], st.interrupts, i, inst, StoredResult(st.results, i), r, dir);
      SetEnding(st, i, ending, [AttemptFinished(i, inst.attempt)]).(live := st.live - {i})
    case Recover(i, r, dir) =>
      var inst := st.instances[i];
      var ending := Recovered(st.tasks[inst.binding.task], st.interrupts, i, inst, StoredResult(st.results, i), r, dir);
      SetEnding(st, i, ending, [])
    case GiveUp(i, p, reason) =>
      SetInstance(st, i, MarkFailed(st.instances[i], p, reason, None, None, false), [BecameFailed(i)])
    case Abort(i) => SetInstance(st, i, Aborted(st.instances[i]), [])
    case Requeue(i) => SetInstance(st, i, Retried(st.instances[i]), [Requeued(i)])
    case Ask(n, request) => st.(interrupts := st.interrupts[n := request], log := st.log + [Requested(n)])
    case Answer(n, reply) =>
      st.(replies := st.replies[n := reply], interrupts := st.interrupts[n := st.interrupts[n].(status := Resolved)],
          log := st.log + [WasResolved(n)])
    case Apply(n) =>
      st.(interrupts := st.interrupts[n := st.interrupts[n].(status := Applied)], log := st.log + [WasApplied(n)])
    case Crash => st.(live := map[])
  }

  ghost predicate Stepped(st: State, a: Action, st': State) {
    Enabled(st, a) && st' == Next(st, a)
  }

  // The run as created, before any instance exists.
  function Initial(tasks: Tasks, userInputs: map<string, Json>): State {
    State(tasks, userInputs, map[BASE := BASE_SCOPE], map[], map[], map[], map[], [RunCreated, ScopeCreated(BASE)],
      map[])
  }

  // st' is reached from st by these steps.
  ghost predicate IsRun(st: State, actions: seq<Action>, st': State)
    decreases |actions|
  {
    if actions == [] then st' == st
    else Enabled(st, actions[0]) && IsRun(Next(st, actions[0]), actions[1..], st')
  }

  lemma {:induction false} RunAppend(st: State, actions: seq<Action>, mid: State, a: Action)
    requires IsRun(st, actions, mid) && Enabled(mid, a)
    ensures IsRun(st, actions + [a], Next(mid, a))
    decreases |actions|
  {
    if actions != [] {
      assert (actions + [a])[1..] == actions[1..] + [a];
      RunAppend(Next(st, actions[0]), actions[1..], mid, a);
    } else {
      assert (actions + [a])[1..] == [];
    }
  }

  lemma {:induction false} RunJoin(st: State, first: seq<Action>, mid: State, second: seq<Action>, end: State)
    requires IsRun(st, first, mid) && IsRun(mid, second, end)
    ensures IsRun(st, first + second, end)
    decreases |first|
  {
    if first == [] {
      assert first + second == second;
    } else {
      assert (first + second)[1..] == first[1..] + second;
      RunJoin(Next(st, first[0]), first[1..], mid, second, end);
    }
  }

  // The later part of a run starts where the earlier part ended.
  lemma {:induction false} RunSplit(st: State, first: seq<Action>, mid: State, second: seq<Action>, end: State)
    requires IsRun(st, first, mid) && IsRun(st, first + second, end)
    ensures IsRun(mid, second, end)
    decreases |first|
  {
    hide Enabled, Next;
    if first == [] {
      assert first + second == second;
    } else {
      assert (first + second)[0] == first[0] && (first + second)[1..] == first[1..] + second;
      RunSplit(Next(st, first[0]), first[1..], mid, second, end);
    }
  }
}
