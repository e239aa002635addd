// What the steps make of an instance, told from the instance before and after alone.
module StepOutcomes {
  import opened Domain
  import opened TaskGraph
  import opened InstanceGraph
  import opened ControlEnvelope
  import opened RunState
  import opened Invariants
  import opened Preservation
  import opened RunTheorems
  import opened RunProgress
  import opened RunSteps

  // ---------- interrupts ----------

  // A blocking interrupt of i has no reply yet.
  ghost predicate IsBlocked(interrupts: map<InterruptId, Interrupt>, i: InstanceId) {
    exists n :: n in interrupts && IsOpenFor(interrupts[n], i)
  }

  ghost predicate IsOpenFor(interrupt: Interrupt, i: InstanceId) {
    interrupt.instance == i && interrupt.blocking && interrupt.status == Open
  }

  // Somebody in the audience of the required decision was asked for it, in a blocking way.
  ghost predicate AskedFor(interrupts: map<InterruptId, Interrupt>, i: InstanceId, r: RequiredDecision) {
    exists n :: n in interrupts && AsksOf(interrupts[n], i, r)
  }

  ghost predicate AsksOf(interrupt: Interrupt, i: InstanceId, r: RequiredDecision) {
    interrupt.instance == i && interrupt.blocking && interrupt.decision == Some(r.decision) &&
    (r.audience.Only? ==> interrupt.audience == r.audience.audience)
  }

  lemma BlockedIffOpen(interrupts: map<InterruptId, Interrupt>, i: InstanceId)
    ensures IsBlocked(interrupts, i) <==> OpenBlocking(interrupts, i) != {}
    ensures forall n :: n in OpenBlocking(interrupts, i) <==> n in interrupts && IsOpenFor(interrupts[n], i)
  {
    if n :| n in interrupts && IsOpenFor(interrupts[n], i) {
      assert n in OpenBlocking(interrupts, i);
    }
  }

  lemma AskedIffMade(interrupts: map<InterruptId, Interrupt>, i: InstanceId, r: RequiredDecision)
    ensures AskedFor(interrupts, i, r) <==> DecisionMade(interrupts, i, r)
  {
    if n :| n in interrupts && AsksOf(interrupts[n], i, r) {
      assert Matches(interrupts[n], i, r);
    }
    if n :| n in interrupts && Matches(interrupts[n], i, r) {
      assert AsksOf(interrupts[n], i, r);
    }
  }

  // ---------- a visit of the refresh sweep ----------

  // Each visit decides it anew.
  predicate IsUndecided(inst: Instance) {
    inst.status == Pending || (inst.status == Skipped && inst.error == Some(UpstreamFailed))
  }

  // The instance that i is bound to for dependency d of its task has this status.
  ghost predicate DependencyIs(st: State, i: InstanceId, d: TaskId, status: Status)
    requires i in st.instances && st.instances[i].binding.task in st.tasks
  {
    var b := st.instances[i].binding;
    d in DepTasks(st.tasks[b.task]) && d in b.deps && b.deps[d] in st.instances &&
    st.instances[b.deps[d]].status == status
  }

  ghost predicate HasLostDependency(st: State, i: InstanceId)
    requires i in st.instances && st.instances[i].binding.task in st.tasks
  {
    exists d :: DependencyIs(st, i, d, Failed) || DependencyIs(st, i, d, Skipped)
  }

  // All dependencies are done and have published what the task consumes.
  ghost predicate HasSupplies(st: State, i: InstanceId)
    requires i in st.instances && st.instances[i].binding.task in st.tasks
  {
    (forall d :: d in DepTasks(st.tasks[st.instances[i].binding.task]) ==> DependencyIs(st, i, d, Done)) &&
    forall dep, p :: IsConsumed(st, i, dep, p) ==> HasConsumed(st, i, dep, p)
  }

  // b is what a visit leaves of the instance i of st.
  ghost predicate IsVisited(st: State, i: InstanceId, b: Instance)
    requires i in st.instances && st.instances[i].binding.task in st.tasks
  {
    var a := st.instances[i];
    b.binding == a.binding && b.attempt == a.attempt && b.session == a.session && b.published == a.published &&
    b.termination == a.termination &&
    (forall n :: n in b.blocking <==> n in st.interrupts && IsOpenFor(st.interrupts[n], i)) &&
    (IsUndecided(a) ==>
      b.status in {Skipped, Runnable, Pending} &&
      (b.status == Skipped <==> HasLostDependency(st, i)) &&
      (b.status == Skipped ==> b.error == Some(UpstreamFailed)) &&
      (b.status == Runnable <==> !HasLostDependency(st, i) && HasSupplies(st, i)) &&
      (a.status == Skipped && b.status != Skipped ==> b.error == None)) &&
    (a.status == Waiting ==>
      b.status in {Runnable, Waiting} && (b.status == Waiting <==> IsBlocked(st.interrupts, i)) &&
      (b.status == Waiting ==> b == a.(waitingForReplies := true, blocking := b.blocking)) &&
      (b.status == Runnable ==> b.error == None)) &&
    (a.status != Waiting && !IsUndecided(a) ==> b == a.(blocking := b.blocking)) &&
    (b.status == Runnable && a.status != Runnable ==>
      !b.waitingForReplies && b.failureKind == None && b.failureSummary == None && !b.resumeRecommended)
  }

  // What a visit reports: that an instance which waited goes on, or that another one became ready.
  ghost predicate IsVisitReport(a: Instance, b: Instance, i: InstanceId, events: seq<Event>) {
    events ==
      if b.status != Runnable || a.status == Runnable then []
      else if a.status == Waiting then [Resumed(i)]
      else [BecameRunnable(i)]
  }

  // A visit skips an undecided instance exactly if a dependency has failed or was skipped, makes it ready exactly
  // if none has and all its dependencies are done with what it consumes, and lets a waiting one go on exactly
  // if nothing blocks it.
  lemma RefreshOutcome(st: State, i: InstanceId)
    requires Enabled(st, Refresh(i))
    ensures i in Next(st, Refresh(i)).instances && IsVisited(st, i, Next(st, Refresh(i)).instances[i])
    ensures
      var events := Next(st, Refresh(i)).log[|st.log|..];
      st.log <= Next(st, Refresh(i)).log && IsVisitReport(st.instances[i], Next(st, Refresh(i)).instances[i], i, events)
  {
    hide IsVisited, Refreshed, RefreshEvents, IsVisitReport;
    var task := st.tasks[st.instances[i].binding.task];
    var after := Refreshed(task, st.instances, st.interrupts, i);
    RefreshedAs(st, i);
    assert Next(st, Refresh(i)).log[|st.log|..] == RefreshEvents(st.instances[i], after, i);
  }

  lemma ReportedAs(a: Instance, b: Instance, i: InstanceId)
    ensures IsVisitReport(a, b, i, RefreshEvents(a, b, i))
  {
  }

  lemma RefreshedAs(st: State, i: InstanceId)
    requires Known(st, i)
    ensures
      var after := Refreshed(st.tasks[st.instances[i].binding.task], st.instances, st.interrupts, i);
      IsVisited(st, i, after) &&
      IsVisitReport(st.instances[i], after, i, RefreshEvents(st.instances[i], after, i))
  {
    hide Refreshed, RefreshEvents, IsVisited, IsVisitReport;
    VisitedAs(st, i);
    ReportedAs(st.instances[i], Refreshed(st.tasks[st.instances[i].binding.task], st.instances, st.interrupts, i), i);
  }

  lemma VisitedAs(st: State, i: InstanceId)
    requires Known(st, i)
    ensures IsVisited(st, i, Refreshed(st.tasks[st.instances[i].binding.task], st.instances, st.interrupts, i))
  {
    hide DependencyFailed, DependenciesSatisfied, HasLostDependency, HasSupplies, OpenBlocking, IsBlocked;
    LostIffFailed(st, i);
    SuppliedIffSatisfied(st, i);
    BlockedIffOpen(st.interrupts, i);
  }

  lemma LostIffFailed(st: State, i: InstanceId)
    requires Known(st, i)
    ensures HasLostDependency(st, i) <==>
      DependencyFailed(st.tasks[st.instances[i].binding.task], st.instances, st.instances[i].binding.deps)
  {
    var task, deps := st.tasks[st.instances[i].binding.task], st.instances[i].binding.deps;
    if DependencyFailed(task, st.instances, deps) {
      var k :| 0 <= k < |task.dependsOn| && DepFailed(st.instances, deps, task.dependsOn[k]);
      var d := task.dependsOn[k].task;
      assert DependencyIs(st, i, d, Failed) || DependencyIs(st, i, d, Skipped);
    }
    if HasLostDependency(st, i) {
      var d :| DependencyIs(st, i, d, Failed) || DependencyIs(st, i, d, Skipped);
      var k :| 0 <= k < |task.dependsOn| && task.dependsOn[k].task == d;
      assert DepFailed(st.instances, deps, task.dependsOn[k]);
    }
  }

  lemma SuppliedIffSatisfied(st: State, i: InstanceId)
    requires Known(st, i)
    ensures HasSupplies(st, i) <==>
      DependenciesSatisfied(st.tasks[st.instances[i].binding.task], st.instances, st.instances[i].binding.deps)
  {
    var task, deps := st.tasks[st.instances[i].binding.task], st.instances[i].binding.deps;
    if HasSupplies(st, i) {
      forall k | 0 <= k < |task.dependsOn|
        ensures DepSatisfied(st.instances, deps, task.dependsOn[k])
      {
        var dep := task.dependsOn[k];
        assert DependencyIs(st, i, dep.task, Done);
        forall p | dep.kind == Context && p in dep.consume
          ensures p in st.instances[deps[dep.task]].published
        {
          assert IsConsumed(st, i, dep, p) && HasConsumed(st, i, dep, p);
        }
      }
    }
    if DependenciesSatisfied(task, st.instances, deps) {
      forall d | d in DepTasks(task)
        ensures DependencyIs(st, i, d, Done)
      {
        var k :| 0 <= k < |task.dependsOn| && task.dependsOn[k].task == d;
        assert DepSatisfied(st.instances, deps, task.dependsOn[k]);
      }
      forall dep, p | IsConsumed(st, i, dep, p)
        ensures HasConsumed(st, i, dep, p)
      {
        var k :| 0 <= k < |task.dependsOn| && task.dependsOn[k] == dep;
        assert DepSatisfied(st.instances, deps, task.dependsOn[k]);
      }
    }
  }

  // ---------- the result document ----------

  // Why a document is refused: it is missing although the task owes one, cannot be parsed, or holds no control
  // that the controller may emit.
  ghost predicate IsRefused(task: Task, document: ResultFile, p: Problem) {
    (document == NoResult && p == ResultMissing &&
      (task.control.Some? || task.hasResultSchema || "result.json" in task.publish)) ||
    (document == Malformed && p == ResultMalformed) ||
    (document.Parsed? && task.control.Some? && p == ControlInvalid &&
      (document.payload.control.Some? ==> !MayEmit(task, document.payload.control.value)))
  }

  ghost predicate IsAcceptable(task: Task, document: ResultFile) {
    forall p :: !IsRefused(task, document, p)
  }

  function PayloadOf(document: ResultFile): Option<Payload> {
    if document.Parsed? then Some(document.payload) else None
  }

  // The events that tell what the document of i decided: for each route whether its label was emitted, or
  // whether the loop goes on.
  ghost predicate TellsDecision(task: Task, i: InstanceId, control: Control, events: seq<Event>) {
    match task.control
    case None => events == []
    case Some(RouteMode(routes)) =>
      |events| == |routes| &&
      forall k :: 0 <= k < |routes| ==>
        events[k].RouteDecided? && events[k].id == i && events[k].route == routes[k].name &&
        (events[k].selected <==> routes[k].name in control.labels)
    case Some(LoopMode(_, _)) =>
      |events| == 1 && events[0].LoopDecided? && events[0].id == i &&
      (events[0].continued <==> control.action == Some(Continue))
  }

  // A document is refused for a reason, or what it holds is stored, if anything, and reported.
  lemma MaterializeOutcome(task: Task, i: InstanceId, dir: AttemptDir)
    ensures forall p :: Materialize(task, i, dir) == Refused(p) <==> IsRefused(task, dir.result, p)
    ensures IsAcceptable(task, dir.result) <==> !Materialize(task, i, dir).Refused?
    ensures IsAcceptable(task, dir.result) ==>
      (Materialize(task, i, dir).Keep? <==> dir.result.Parsed?) &&
      (dir.result.Parsed? ==> Materialize(task, i, dir).payload == dir.result.payload)
    ensures IsAcceptable(task, dir.result) && dir.result.Parsed? && task.control.None? ==>
      Materialize(task, i, dir).events == [ResultStored(i)]
    ensures IsAcceptable(task, dir.result) && dir.result.Parsed? && task.control.Some? ==>
      var events, control := Materialize(task, i, dir).events, dir.result.payload.control;
      |events| >= 2 && events[..2] == [ResultStored(i), ControlEmitted(i)] && control.Some? &&
      TellsDecision(task, i, control.value, events[2..])
  {
    hide ControlFor, MayEmit;
    if dir.result.Parsed? {
      AcceptedIff(task, dir.result.payload);
    }
    var m := Materialize(task, i, dir);
    forall p
      ensures m == Refused(p) <==> IsRefused(task, dir.result, p)
    {
    }
    if m.Refused? {
      assert IsRefused(task, dir.result, m.problem);
    }
    if m.Keep? && task.control.Some? {
      assert m.events[2..] == ControlEvents(task, i, ControlFor(task, dir.result.payload).value);
    }
  }

  // ---------- the end of an attempt ----------

  // The record of a failure.
  ghost predicate FailedAs(inst: Instance, error: Problem, termination: Termination, kind: FailureKind,
                           summary: Problem, resume: bool) {
    inst.status == Failed && !inst.waitingForReplies && inst.error == Some(error) &&
    inst.termination == Some(termination) && inst.failureKind == Some(kind) && inst.failureSummary == Some(summary) &&
    inst.resumeRecommended == resume
  }

  // Refused for p: no resuming is recommended.
  ghost predicate RefusedFor(inst: Instance, p: Problem, termination: Termination, kind: FailureKind) {
    FailedAs(inst, p, termination, kind, p, false)
  }

  // The first declared file that was not produced.
  ghost predicate IsFirstLost(publish: seq<Path>, files: set<Path>, k: int) {
    0 <= k < |publish| && publish[k] !in files && forall j :: 0 <= j < k ==> publish[j] in files
  }

  ghost predicate AllProducedIn(publish: seq<Path>, files: set<Path>) {
    forall p :: p in publish ==> p in files
  }

  ghost predicate AllAsked(interrupts: map<InterruptId, Interrupt>, i: InstanceId, required: seq<RequiredDecision>) {
    forall r :: r in required ==> AskedFor(interrupts, i, r)
  }

  // The required decisions that nobody was asked for.
  ghost predicate NotAsked(interrupts: map<InterruptId, Interrupt>, i: InstanceId, required: seq<RequiredDecision>,
                           missing: seq<RequiredDecision>) {
    forall r :: r in missing <==> r in required && !AskedFor(interrupts, i, r)
  }

  // A completed attempt that waits for nobody: the document is looked at first, then the files, then the decisions.
  ghost predicate ConcludesAs(task: Task, interrupts: map<InterruptId, Interrupt>, i: InstanceId, dir: AttemptDir,
                              inst: Instance, result: Option<Payload>) {
    (forall p :: IsRefused(task, dir.result, p) ==> result == None && RefusedFor(inst, p, NonzeroExit, TaskRuntime)) &&
    (IsAcceptable(task, dir.result) ==>
      (forall k :: IsFirstLost(task.publish, dir.files, k) ==>
        result == None && RefusedFor(inst, NotProduced(task.publish[k]), NonzeroExit, TaskRuntime)) &&
      (AllProducedIn(task.publish, dir.files) ==>
        if AllAsked(interrupts, i, task.requiredDecisions) then
          inst.status == Done && !inst.waitingForReplies && inst.published == task.publish && inst.error == None &&
          inst.failureKind == None && inst.failureSummary == None && !inst.resumeRecommended &&
          result == PayloadOf(dir.result)
        else
          result == None && inst.error.Some? && inst.error.value.DecisionsMissing? &&
          NotAsked(interrupts, i, task.requiredDecisions, inst.error.value.missing) &&
          RefusedFor(inst, inst.error.value, Completed, DecisionObligation)))
  }

  lemma {:induction false} FirstLostIs(publish: seq<Path>, files: set<Path>)
    ensures AllProducedIn(publish, files) <==> FirstNotProduced(publish, files) == None
    ensures forall k :: IsFirstLost(publish, files, k) ==> FirstNotProduced(publish, files) == Some(publish[k])
  {
    if publish != [] {
      FirstLostIs(publish[1..], files);
      assert AllProducedIn(publish, files) <==> publish[0] in files && AllProducedIn(publish[1..], files);
      forall k | IsFirstLost(publish, files, k)
        ensures FirstNotProduced(publish, files) == Some(publish[k])
      {
        if k > 0 {
          assert IsFirstLost(publish[1..], files, k - 1);
        }
      }
    }
  }

  lemma {:induction false} MissingAre(interrupts: map<InterruptId, Interrupt>, i: InstanceId,
                                      required: seq<RequiredDecision>)
    ensures NotAsked(interrupts, i, required, MissingDecisions(interrupts, i, required))
    ensures AllAsked(interrupts, i, required) <==> MissingDecisions(interrupts, i, required) == []
  {
    hide AskedFor, DecisionMade;
    var missing := MissingDecisions(interrupts, i, required);
    if required != [] {
      MissingAre(interrupts, i, required[1..]);
      AskedIffMade(interrupts, i, required[0]);
      assert forall r :: r in required <==> r == required[0] || r in required[1..];
    }
    if missing != [] {
      assert missing[0] in missing;
    }
  }

  lemma ConcludedOutcome(task: Task, interrupts: map<InterruptId, Interrupt>, i: InstanceId, seen: Instance,
                         dir: AttemptDir)
    ensures
      var ending := Concluded(task, interrupts, i, seen, dir);
      ConcludesAs(task, interrupts, i, dir, ending.instance, ending.result) &&
      ending.instance.binding == seen.binding && ending.instance.attempt == seen.attempt &&
      ending.instance.session == seen.session &&
      (ending.instance.status != Failed ==> ending.instance.termination == seen.termination)
  {
    hide Materialize, FirstNotProduced, MissingDecisions, IsRefused, AllAsked, NotAsked, AllProducedIn, IsFirstLost,
      IsAcceptable;
    MaterializeOutcome(task, i, dir);
    FirstLostIs(task.publish, dir.files);
    MissingAre(interrupts, i, task.requiredDecisions);
    AcceptableUnrefused(task, dir.result);
    SomeFirstLost(task.publish, dir.files);
  }

  lemma AcceptableUnrefused(task: Task, document: ResultFile)
    ensures IsAcceptable(task, document) ==> forall p :: !IsRefused(task, document, p)
  {
  }

  lemma SomeFirstLost(publish: seq<Path>, files: set<Path>)
    ensures AllProducedIn(publish, files) ==> forall k :: !IsFirstLost(publish, files, k)
  {
  }

  // ---------- ending in process and by recovery ----------

  // The reason given, or else what the exit tells.
  ghost predicate IsTermination(t: Termination, given: Option<Termination>, completed: bool, killed: bool) {
    if given.Some? then t == given.value
    else if completed then t == Completed
    else if killed then t == Terminated
    else t == NonzeroExit
  }

  // The text given, or else this; no text and the empty text are the same.
  ghost predicate TellsOr(p: Problem, text: Option<string>, default: Problem) {
    if text == None || text == Some("") then p == default else p == Reported(text.value)
  }

  // The message for a termination that came with no other.
  ghost predicate TellsTermination(p: Problem, t: Termination) {
    match t
    case Orphaned => p == WorkerGone
    case Completed => p == ExecFailed
    case NonzeroExit => p == ExecFailed
    case _ => p == EndedBy(t)
  }

  // A failure of the worker: its kind and summary as given, and resuming recommended exactly if it was.
  ghost predicate WorkerFailed(inst: Instance, kind: Option<FailureKind>, summary: Option<string>, resume: bool) {
    inst.status == Failed && !inst.waitingForReplies && inst.error.Some? &&
    inst.failureKind == Some(if kind == None then UnknownFailure else kind.value) &&
    inst.failureSummary.Some? && TellsOr(inst.failureSummary.value, summary, inst.error.value) &&
    inst.resumeRecommended == resume
  }

  ghost predicate IsPutToWait(interrupts: map<InterruptId, Interrupt>, i: InstanceId, inst: Instance) {
    inst.status == Waiting && inst.waitingForReplies && inst.error == Some(RepliesPending) &&
    forall n :: n in inst.blocking <==> n in interrupts && IsOpenFor(interrupts[n], i)
  }

  ghost predicate KeepsIdentity(a: Instance, b: Instance) {
    b.binding == a.binding && b.attempt == a.attempt
  }

  // Ended in process: blocked it waits, whatever the worker returned; else success is concluded and failure recorded.
  ghost predicate FinishedAs(st: State, i: InstanceId, r: NodeResult, dir: AttemptDir, inst: Instance,
                             result: Option<Payload>)
    requires Known(st, i)
  {
    var before := st.instances[i];
    KeepsIdentity(before, inst) && inst.session == (if r.session == None then before.session else r.session) &&
    (inst.status != Failed ==>
      inst.termination.Some? && IsTermination(inst.termination.value, r.termination, r.success, r.returnCode < 0)) &&
    if IsBlocked(st.interrupts, i) then
      IsPutToWait(st.interrupts, i, inst) && result == StoredResult(st.results, i)
    else if r.success then ConcludesAs(st.tasks[before.binding.task], st.interrupts, i, dir, inst, result)
    else
      result == None && WorkerFailed(inst, r.failureKind, r.failureSummary, r.resumeRecommended) &&
      TellsOr(inst.error.value, r.error, ExecFailed) &&
      inst.termination.Some? && IsTermination(inst.termination.value, r.termination, false, r.returnCode < 0)
  }

  lemma FinishedOutcome(st: State, i: InstanceId, r: NodeResult, dir: AttemptDir)
    requires Known(st, i)
    ensures
      var inst := st.instances[i];
      var ending := Finished(st.tasks[inst.binding.task], st.interrupts, i, inst, StoredResult(st.results, i), r, dir);
      FinishedAs(st, i, r, dir, ending.instance, ending.result)
  {
    hide Concluded, ConcludesAs, OpenBlocking, IsBlocked, StoredResult;
    var inst := st.instances[i];
    BlockedIffOpen(st.interrupts, i);
    ConcludedOutcome(st.tasks[inst.binding.task], st.interrupts, i, SeenFinished(st.interrupts, i, inst, r), dir);
  }

  // Ended by recovery: only a completed attempt may still wait.
  ghost predicate RecoveredAs(st: State, i: InstanceId, rt: Runtime, dir: AttemptDir, inst: Instance,
                              result: Option<Payload>)
    requires Known(st, i)
  {
    var before := st.instances[i];
    KeepsIdentity(before, inst) && inst.session == before.session &&
    (inst.status != Failed ==> inst.termination == Some(Completed)) &&
    if !IsCompleted(rt) then
      result == None && WorkerFailed(inst, rt.failureKind, rt.failureSummary, rt.resumeRecommended) &&
      inst.termination.Some? &&
      IsTermination(inst.termination.value, rt.termination, false, rt.returnCode.Some? && rt.returnCode.value < 0) &&
      (rt.failureSummary == None || rt.failureSummary == Some("") ==>
        TellsTermination(inst.error.value, inst.termination.value)) &&
      (rt.failureSummary != None && rt.failureSummary != Some("") ==>
        inst.error == Some(Reported(rt.failureSummary.value)))
    else if IsBlocked(st.interrupts, i) then
      IsPutToWait(st.interrupts, i, inst) && result == StoredResult(st.results, i)
    else ConcludesAs(st.tasks[before.binding.task], st.interrupts, i, dir, inst, result)
  }

  // The record tells a completed attempt.
  predicate IsCompleted(rt: Runtime) {
    rt.termination == Some(Completed) || (rt.termination == None && rt.returnCode == Some(0))
  }

  lemma RecoveredOutcome(st: State, i: InstanceId, rt: Runtime, dir: AttemptDir)
    requires Known(st, i)
    ensures
      var inst := st.instances[i];
      var ending := Recovered(st.tasks[inst.binding.task], st.interrupts, i, inst, StoredResult(st.results, i), rt,
        dir);
      RecoveredAs(st, i, rt, dir, ending.instance, ending.result)
  {
    hide Concluded, ConcludesAs, OpenBlocking, IsBlocked, StoredResult, MarkFailed, WorkerFailed, TellsTermination;
    var inst := st.instances[i];
    if RuntimeTermination(rt) == Completed {
      BlockedIffOpen(st.interrupts, i);
      ConcludedOutcome(st.tasks[inst.binding.task], st.interrupts, i, SeenRecovered(st.interrupts, i, inst, rt), dir);
    } else {
      RecoveredFailure(inst, rt);
    }
  }

  lemma RecoveredFailure(before: Instance, rt: Runtime)
    requires RuntimeTermination(rt) != Completed
    ensures
      var inst := MarkFailed(before.(termination := Some(RuntimeTermination(rt)), failureKind := rt.failureKind,
          failureSummary := AsProblem(rt.failureSummary), resumeRecommended := rt.resumeRecommended),
        TextOr(rt.failureSummary, TerminationProblem(RuntimeTermination(rt))), RuntimeTermination(rt), rt.failureKind,
        AsProblem(rt.failureSummary), rt.resumeRecommended);
      KeepsIdentity(before, inst) && inst.session == before.session && inst.status == Failed &&
      WorkerFailed(inst, rt.failureKind, rt.failureSummary, rt.resumeRecommended) &&
      inst.termination == Some(RuntimeTermination(rt)) && inst.error.Some? &&
      (rt.failureSummary == None || rt.failureSummary == Some("") ==>
        TellsTermination(inst.error.value, inst.termination.value)) &&
      (rt.failureSummary != None && rt.failureSummary != Some("") ==>
        inst.error == Some(Reported(rt.failureSummary.value)))
  {
  }

  lemma StepIs(st: State, a: Action, st': State)
    requires Stepped(st, a, st')
    ensures Enabled(st, a) && st' == Next(st, a)
  {
  }

  // The end of an attempt leaves its instance and its result so, and all others as they were.
  lemma FinishOutcome(st: State, i: InstanceId, r: NodeResult, dir: AttemptDir)
    requires Known(st, i) && i in st.live
    ensures
      var st' := Next(st, Finish(i, r, dir));
      st'.instances.Keys == st.instances.Keys &&
      FinishedAs(st, i, r, dir, st'.instances[i], StoredResult(st'.results, i)) &&
      forall x :: x in st.instances && x != i ==>
        st'.instances[x] == st.instances[x] && StoredResult(st'.results, x) == StoredResult(st.results, x)
  {
    hide Finished, FinishedAs;
    FinishedOutcome(st, i, r, dir);
  }

  lemma FinishLeaves(st: State, i: InstanceId, r: NodeResult, dir: AttemptDir, st': State)
    requires Known(st, i) && Stepped(st, Finish(i, r, dir), st')
    ensures st'.instances.Keys == st.instances.Keys
    ensures FinishedAs(st, i, r, dir, st'.instances[i], StoredResult(st'.results, i))
  {
    hide Next, FinishedAs, StoredResult;
    FinishOutcome(st, i, r, dir);
  }

  lemma RecoverOutcome(st: State, i: InstanceId, rt: Runtime, dir: AttemptDir)
    requires Enabled(st, Recover(i, rt, dir))
    ensures Known(st, i)
    ensures
      var st' := Next(st, Recover(i, rt, dir));
      st'.instances.Keys == st.instances.Keys &&
      RecoveredAs(st, i, rt, dir, st'.instances[i], StoredResult(st'.results, i)) &&
      forall x :: x in st.instances && x != i ==>
        st'.instances[x] == st.instances[x] && StoredResult(st'.results, x) == StoredResult(st.results, x)
  {
    hide Recovered, RecoveredAs;
    RecoveredOutcome(st, i, rt, dir);
  }

  // ---------- what an ending reports ----------

  // The stored document is reported, with what it decided.
  ghost predicate TellsDocument(task: Task, i: InstanceId, document: ResultFile, events: seq<Event>) {
    if !IsAcceptable(task, document) || !document.Parsed? then events == []
    else if task.control == None then events == [ResultStored(i)]
    else
      |events| >= 2 && events[..2] == [ResultStored(i), ControlEmitted(i)] && document.payload.control.Some? &&
      TellsDecision(task, i, document.payload.control.value, events[2..])
  }

  function OutcomeEvent(i: InstanceId, status: Status): Event {
    match status
    case Waiting => BeganWaiting(i)
    case Done => BecameDone(i)
    case _ => BecameFailed(i)
  }

  lemma DocumentTold(task: Task, i: InstanceId, dir: AttemptDir)
    ensures
      var m := Materialize(task, i, dir);
      TellsDocument(task, i, dir.result, if m.Keep? then m.events else [])
  {
    hide Materialize, IsRefused, MayEmit, TellsDecision, IsAcceptable;
    MaterializeOutcome(task, i, dir);
  }

  lemma ConcludedReports(task: Task, interrupts: map<InterruptId, Interrupt>, i: InstanceId, seen: Instance,
                         dir: AttemptDir)
    ensures
      var ending := Concluded(task, interrupts, i, seen, dir);
      var told := if ending.instance.status == Failed && ending.events != [] then ending.events[..|ending.events| - 1]
        else ending.events;
      ending.instance.status in {Done, Failed} && TellsDocument(task, i, dir.result, told) &&
      ending.events == told + if ending.instance.status == Failed then [BecameFailed(i)] else []
  {
    hide Materialize, FirstNotProduced, MissingDecisions, TellsDocument;
    DocumentTold(task, i, dir);
  }

  // Of an attempt that ends in process the log tells what its document decided, what became of the instance,
  // and that it has finished.
  lemma FinishReports(st: State, i: InstanceId, r: NodeResult, dir: AttemptDir) returns (told: seq<Event>)
    requires Known(st, i) && i in st.live
    ensures i in Next(st, Finish(i, r, dir)).instances
    ensures Next(st, Finish(i, r, dir)).log == st.log + told +
      [OutcomeEvent(i, Next(st, Finish(i, r, dir)).instances[i].status), AttemptFinished(i, st.instances[i].attempt)]
    ensures if IsBlocked(st.interrupts, i) || !r.success then told == []
      else TellsDocument(st.tasks[st.instances[i].binding.task], i, dir.result, told)
  {
    hide Finished, IsBlocked, TellsDocument, StoreResult;
    var inst := st.instances[i];
    told := FinishedReport(st.tasks[inst.binding.task], st.interrupts, i, inst, StoredResult(st.results, i), r, dir);
  }

  lemma FinishedReport(task: Task, interrupts: map<InterruptId, Interrupt>, i: InstanceId, inst: Instance,
                       stored: Option<Payload>, r: NodeResult, dir: AttemptDir) returns (told: seq<Event>)
    ensures
      var ending := Finished(task, interrupts, i, inst, stored, r, dir);
      ending.events == told + [OutcomeEvent(i, ending.instance.status)]
    ensures if IsBlocked(interrupts, i) || !r.success then told == []
      else TellsDocument(task, i, dir.result, told)
  {
    hide Concluded, OpenBlocking, IsBlocked, TellsDocument;
    BlockedIffOpen(interrupts, i);
    var seen := SeenFinished(interrupts, i, inst, r);
    ConcludedReports(task, interrupts, i, seen, dir);
    var ending := Concluded(task, interrupts, i, seen, dir);
    told := if IsBlocked(interrupts, i) || !r.success then []
      else if ending.instance.status == Failed && ending.events != [] then ending.events[..|ending.events| - 1]
      else ending.events;
  }

  // Of an attempt that recovery ends it tells the same of the document, and else a failure only.
  lemma RecoverReports(st: State, i: InstanceId, rt: Runtime, dir: AttemptDir) returns (told: seq<Event>)
    requires Enabled(st, Recover(i, rt, dir))
    ensures Known(st, i) && i in Next(st, Recover(i, rt, dir)).instances
    ensures Next(st, Recover(i, rt, dir)).log == st.log + told +
      if Next(st, Recover(i, rt, dir)).instances[i].status == Failed then [BecameFailed(i)] else []
    ensures if IsBlocked(st.interrupts, i) || !IsCompleted(rt) then told == []
      else TellsDocument(st.tasks[st.instances[i].binding.task], i, dir.result, told)
  {
    hide Recovered, IsBlocked, TellsDocument, StoreResult, IsCompleted;
    var inst := st.instances[i];
    told := RecoveredReport(st.tasks[inst.binding.task], st.interrupts, i, inst, StoredResult(st.results, i), rt, dir);
  }

  lemma RecoveredReport(task: Task, interrupts: map<InterruptId, Interrupt>, i: InstanceId, inst: Instance,
                        stored: Option<Payload>, rt: Runtime, dir: AttemptDir) returns (told: seq<Event>)
    ensures
      var ending := Recovered(task, interrupts, i, inst, stored, rt, dir);
      ending.events == told + if ending.instance.status == Failed then [BecameFailed(i)] else []
    ensures if IsBlocked(interrupts, i) || !IsCompleted(rt) then told == []
      else TellsDocument(task, i, dir.result, told)
  {
    hide Concluded, OpenBlocking, IsBlocked, TellsDocument;
    BlockedIffOpen(interrupts, i);
    var seen := SeenRecovered(interrupts, i, inst, rt);
    ConcludedReports(task, interrupts, i, seen, dir);
    var ending := Concluded(task, interrupts, i, seen, dir);
    told := if IsBlocked(interrupts, i) || !IsCompleted(rt) then []
      else if ending.instance.status == Failed && ending.events != [] then ending.events[..|ending.events| - 1]
      else ending.events;
  }

  // What recovery makes of a running instance by what it observes. Only a finished record can recommend resuming.
  lemma ObservedOutcome(st: State, i: InstanceId, o: Observation)
    requires Known(st, i)
    ensures
      var inst := AfterRecovery(st, i, o);
      match o
      case JustStarted => inst == st.instances[i]
      case Alive => inst == st.instances[i]
      case RuntimeLost => RefusedFor(inst, RuntimeMissing, Orphaned, UnknownFailure)
      case WorkerDead => RefusedFor(inst, WorkerGone, Orphaned, UnknownFailure)
      case Stale(reason) =>
        inst.error.Some? && TellsTermination(inst.error.value, reason) &&
        RefusedFor(inst, inst.error.value, reason, UnknownFailure)
      case RunEnded(rt, dir) => exists result :: RecoveredAs(st, i, rt, dir, inst, result)
  {
    hide Recovered, RecoveredAs;
    if o.RunEnded? {
      RecoveredOutcome(st, i, o.runtime, o.dir);
      var ending := Recovered(st.tasks[st.instances[i].binding.task], st.interrupts, i, st.instances[i],
        StoredResult(st.results, i), o.runtime, o.dir);
      assert RecoveredAs(st, i, o.runtime, o.dir, AfterRecovery(st, i, o), ending.result);
    }
  }

  // ---------- resuming what failed ----------

  // Made runnable again exactly if it failed and resuming was recommended; all it keeps is who it is.
  ghost predicate IsRequeued(a: Instance, b: Instance) {
    if a.status == Failed && a.resumeRecommended then IsRetried(a, b) else b == a
  }

  ghost predicate IsRetried(a: Instance, b: Instance) {
    KeepsIdentity(a, b) && b.session == a.session && b.published == a.published && b.blocking == a.blocking &&
    b.status == Runnable && !b.waitingForReplies && b.error == None && b.termination == None &&
    b.failureKind == None && b.failureSummary == None && !b.resumeRecommended
  }

  lemma RequeueOutcome(inst: Instance)
    ensures IsRequeued(inst, AfterRequeue(inst)) && IsRetried(inst, Retried(inst))
  {
  }

  // After an attempt has ended in process, resuming the run retries its instance exactly if nothing blocks it, it
  // failed, and the worker recommended it: no refused document, lost file or missing decision is ever retried.
  lemma RetriedIffRecommended(st: State, i: InstanceId, r: NodeResult, dir: AttemptDir)
    requires Known(st, i) && i in st.live
    ensures
      var ended := Next(st, Finish(i, r, dir)).instances;
      i in ended && (AfterRequeue(ended[i]).status == Runnable <==>
        !IsBlocked(st.interrupts, i) && !r.success && r.resumeRecommended)
  {
    hide Next, AfterRequeue, IsBlocked, StoredResult;
    FinishOutcome(st, i, r, dir);
    var inst := Next(st, Finish(i, r, dir)).instances[i];
    var result := StoredResult(Next(st, Finish(i, r, dir)).results, i);
    RequeueOutcome(inst);
    if !IsBlocked(st.interrupts, i) && r.success {
      ConcludedNeverRetried(st.tasks[st.instances[i].binding.task], st.interrupts, i, dir, inst, result);
    }
  }

  // The same after a crash, but that interrupts play no part.
  lemma RecoveredRetriedIff(st: State, i: InstanceId, rt: Runtime, dir: AttemptDir)
    requires Enabled(st, Recover(i, rt, dir))
    ensures
      var ended := Next(st, Recover(i, rt, dir)).instances;
      i in ended && (AfterRequeue(ended[i]).status == Runnable <==> !IsCompleted(rt) && rt.resumeRecommended)
  {
    hide Enabled, Next, AfterRequeue, IsBlocked, StoredResult;
    RecoverOutcome(st, i, rt, dir);
    var inst := Next(st, Recover(i, rt, dir)).instances[i];
    var result := StoredResult(Next(st, Recover(i, rt, dir)).results, i);
    RequeueOutcome(inst);
    if !IsBlocked(st.interrupts, i) && IsCompleted(rt) {
      ConcludedNeverRetried(st.tasks[st.instances[i].binding.task], st.interrupts, i, dir, inst, result);
    }
  }

  lemma ConcludedNeverRetried(task: Task, interrupts: map<InterruptId, Interrupt>, i: InstanceId, dir: AttemptDir,
                              inst: Instance, result: Option<Payload>)
    requires ConcludesAs(task, interrupts, i, dir, inst, result)
    ensures inst.status in {Done, Failed} && !inst.resumeRecommended
  {
    hide IsRefused, AllAsked, NotAsked;
    if IsAcceptable(task, dir.result) && !AllProducedIn(task.publish, dir.files) {
      var k := FirstLost(task.publish, dir.files);
    }
  }

  lemma {:induction false} FirstLost(publish: seq<Path>, files: set<Path>) returns (k: nat)
    requires !AllProducedIn(publish, files)
    ensures IsFirstLost(publish, files, k)
  {
    if publish[0] !in files {
      k := 0;
    } else {
      var rest := FirstLost(publish[1..], files);
      k := rest + 1;
      assert forall j :: 0 < j < k ==> publish[j] == publish[1..][j - 1];
    }
  }

  // ---------- beginning, aborting ----------

  // The next attempt has begun, and no trace of the last failure is left.
  ghost predicate IsBegun(a: Instance, b: Instance) {
    b.status == Running && b.attempt == a.attempt + 1 && b.binding == a.binding && b.session == a.session &&
    b.published == a.published && b.blocking == a.blocking && !b.waitingForReplies && b.error == None &&
    b.termination == None && b.failureKind == None && b.failureSummary == None && !b.resumeRecommended
  }

  lemma BegunOutcome(inst: Instance)
    ensures IsBegun(inst, Begun(inst))
  {
  }

  // The worker is told the number of the attempt and the session to go on with.
  lemma BeginOutcome(st: State, i: InstanceId)
    requires Enabled(st, Begin(i))
    ensures
      var st' := Next(st, Begin(i));
      i in st.instances && st'.instances == st.instances[i := st'.instances[i]] &&
      IsBegun(st.instances[i], st'.instances[i]) &&
      st'.live == st.live[i := Request(st.instances[i].attempt + 1, st.instances[i].session)] &&
      st'.log == st.log + [AttemptStarted(i, st.instances[i].attempt + 1)] &&
      st'.results == st.results && st'.interrupts == st.interrupts
  {
    hide Enabled, Next;
    BeginGives(st, i);
  }

  // What never began is skipped, what was running or waiting has failed, and nothing else changes.
  ghost predicate IsAbortedFrom(a: Instance, b: Instance) {
    if a.status in {Done, Skipped, Failed} then b == a
    else
      KeepsIdentity(a, b) && b.session == a.session && b.published == a.published && b.blocking == a.blocking &&
      b.status == (if a.status in {Pending, Runnable} then Skipped else Failed) &&
      !b.waitingForReplies && b.error == Some(AbortedByUser) && b.termination == Some(Terminated) &&
      b.failureKind == Some(UnknownFailure) && b.failureSummary == Some(AbortedByUser) && !b.resumeRecommended
  }

  lemma AbortOutcome(inst: Instance)
    ensures IsAbortedFrom(inst, AfterAbort(inst))
  {
  }

  // So nothing that abort ended is ever retried by resuming.
  lemma AbortedNotRetried(inst: Instance)
    requires inst.status !in {Done, Skipped, Failed}
    ensures AfterRequeue(AfterAbort(inst)) == AfterAbort(inst)
  {
    hide AfterRequeue, AfterAbort;
    AbortOutcome(inst);
    RequeueOutcome(AfterAbort(inst));
  }
}
