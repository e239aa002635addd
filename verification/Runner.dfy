// How a worker ends, the two records the runner leaves of that, and what becomes of the attempt when the
// scheduler gets the one, or after a crash finds the other.
module Runner {
  import opened Domain
  import opened ControlEnvelope
  import opened RunState
  import opened Invariants
  import opened RunTheorems
  import opened RunProgress
  import opened RunSteps
  import opened StepOutcomes

  // How the failure of an unsuccessful attempt was classified.
  datatype Failure = Failure(kind: FailureKind, summary: string, resumeRecommended: bool)

  // The worker could not be started, perhaps because there is no such command, or it ran and ended.
  datatype WorkerEnd =
    | NotStarted(unknownCommand: bool, reason: string)
    | Ended(returnCode: int, watchdog: Option<Termination>, failure: Failure, session: Option<string>)

  function ResolveTermination(returnCode: int, watchdog: Option<Termination>): Termination {
    if watchdog.Some? then watchdog.value
    else if returnCode == 0 then Completed
    else if returnCode < 0 then Terminated
    else NonzeroExit
  }

  // Nothing is classified for a completed attempt.
  function ClassifiedFailure(termination: Termination, failure: Failure): Option<Failure> {
    if termination == Completed then None else Some(failure)
  }

  predicate RanToCompletion(end: WorkerEnd) {
    end.Ended? && ResolveTermination(end.returnCode, end.watchdog) == Completed
  }

  // What the scheduler is told. The session is the one the worker reported, or the one it resumed.
  function ReturnedResult(end: WorkerEnd, resumed: Option<string>): NodeResult {
    match end
    case NotStarted(unknownCommand, reason) =>
      NodeResult(
        success := false,
        returnCode := if unknownCommand then 127 else 1,
        session := resumed,
        error := Some(reason),
        termination := None,
        failureKind := Some(RunnerInvocation),
        failureSummary := Some(reason),
        resumeRecommended := false)
    case Ended(returnCode, watchdog, failure, session) =>
      var termination := ResolveTermination(returnCode, watchdog);
      var classified := ClassifiedFailure(termination, failure);
      NodeResult(
        success := termination == Completed,
        returnCode := returnCode,
        session := if session.Some? && session.value != "" then session else resumed,
        error := if classified.Some? then Some(classified.value.summary) else None,
        termination := Some(termination),
        failureKind := if classified.Some? then Some(classified.value.kind) else None,
        failureSummary := if classified.Some? then Some(classified.value.summary) else None,
        resumeRecommended := classified.Some? && classified.value.resumeRecommended)
  }

  // What recovery finds. Of a worker that never started there is a record without process and end.
  function Found(end: WorkerEnd, dir: AttemptDir): Observation {
    match end
    case NotStarted(_, _) => WorkerDead
    case Ended(returnCode, watchdog, failure, _) =>
      var termination := ResolveTermination(returnCode, watchdog);
      var classified := ClassifiedFailure(termination, failure);
      RunEnded(
        Runtime(
          returnCode := Some(returnCode),
          termination := Some(termination),
          failureKind := if classified.Some? then Some(classified.value.kind) else None,
          failureSummary := if classified.Some? then Some(classified.value.summary) else None,
          resumeRecommended := classified.Some? && classified.value.resumeRecommended),
        dir)
  }

  // Of a worker that ran, the two records tell the same.
  lemma RecordsAgree(end: WorkerEnd, resumed: Option<string>, dir: AttemptDir)
    ensures end.Ended? <==> Found(end, dir).RunEnded?
    ensures end.Ended? ==> SameAttempt(ReturnedResult(end, resumed), Found(end, dir).runtime)
    ensures end.Ended? && !RanToCompletion(end) ==>
      ReturnedResult(end, resumed).error == ReturnedResult(end, resumed).failureSummary == Some(end.failure.summary)
    ensures end.Ended? && !RanToCompletion(end) ==> RuntimeTermination(Found(end, dir).runtime) != Completed
    ensures ReturnedResult(end, resumed).success <==> RanToCompletion(end)
  {
  }

  // What is told of how the worker ended: the watchdog's reason or else the exit, and of a worker that did not
  // complete also the classified failure.
  lemma ResultTells(end: WorkerEnd, resumed: Option<string>)
    ensures
      var r := ReturnedResult(end, resumed);
      if end.NotStarted? then
        !r.success && r.termination == None && r.returnCode > 0 && !r.resumeRecommended && r.session == resumed &&
        r.failureKind == Some(RunnerInvocation) && r.error == r.failureSummary == Some(end.reason)
      else
        r.termination.Some? && (r.success <==> r.termination.value == Completed) &&
        IsTermination(r.termination.value, end.watchdog, end.returnCode == 0, end.returnCode < 0) &&
        (r.success ==> r.failureKind == None && r.failureSummary == None && !r.resumeRecommended) &&
        (!r.success ==>
          r.failureKind == Some(end.failure.kind) && r.failureSummary == Some(end.failure.summary) &&
          r.resumeRecommended == end.failure.resumeRecommended) &&
        (end.session == None || end.session == Some("") ==> r.session == resumed) &&
        (end.session != None && end.session != Some("") ==> r.session == end.session)
  {
  }

  // ---------- the two endings of one attempt ----------

  // The step that recovery takes for what it found of a worker that runs no longer.
  function RecoveryStep(i: InstanceId, end: WorkerEnd, dir: AttemptDir): Action {
    match Found(end, dir)
    case RunEnded(runtime, _) => Recover(i, runtime, dir)
    case _ => GiveUp(i, WorkerGone, Orphaned)
  }

  // It leaves the instance as recovery does.
  lemma RecoveryStepIsRecovery(st: State, i: InstanceId, end: WorkerEnd, dir: AttemptDir)
    requires Known(st, i) && st.live == map[] && st.instances[i].status == Running
    ensures
      var step := RecoveryStep(i, end, dir);
      Enabled(st, step) &&
      Next(st, step).instances == st.instances[i := AfterRecovery(st, i, Found(end, dir))] &&
      Next(st, step).results == (if end.Ended? then StoreResult(st.results, i, RecoveredEnding(st, i, end, dir).result)
        else st.results) &&
      Next(st, step).log == st.log + if end.Ended? then RecoveredEnding(st, i, end, dir).events else [BecameFailed(i)]
  {
    hide Recovered, MarkFailed, StoreResult;
  }

  function RecoveredEnding(st: State, i: InstanceId, end: WorkerEnd, dir: AttemptDir): Ending
    requires Known(st, i) && end.Ended?
  {
    var inst := st.instances[i];
    Recovered(st.tasks[inst.binding.task], st.interrupts, i, inst, StoredResult(st.results, i), Found(end, dir).runtime,
      dir)
  }

  function FinishedEnding(st: State, i: InstanceId, r: NodeResult, dir: AttemptDir): Ending
    requires Known(st, i)
  {
    var inst := st.instances[i];
    Finished(st.tasks[inst.binding.task], st.interrupts, i, inst, StoredResult(st.results, i), r, dir)
  }

  lemma FinishGives(st: State, i: InstanceId, r: NodeResult, dir: AttemptDir)
    requires Known(st, i) && i in st.live
    ensures
      var ending := FinishedEnding(st, i, r, dir);
      Enabled(st, Finish(i, r, dir)) &&
      Next(st, Finish(i, r, dir)).instances == st.instances[i := ending.instance] &&
      Next(st, Finish(i, r, dir)).results == StoreResult(st.results, i, ending.result) &&
      Next(st, Finish(i, r, dir)).log == st.log + ending.events + [AttemptFinished(i, st.instances[i].attempt)]
  {
    hide Finished, StoreResult;
  }

  lemma CrashGives(st: State)
    ensures Enabled(st, Crash) && Next(st, Crash) == st.(live := map[])
  {
  }

  // Equal but for the session and the list of open interrupts.
  ghost predicate SameOutcome(a: Instance, b: Instance) {
    a.(session := b.session, blocking := b.blocking) == b
  }

  // The attempt of i leaves the same instance, up to session and open interrupts, and the same result.
  ghost predicate EndsAlike(a: State, b: State, i: InstanceId) {
    i in a.instances && i in b.instances && SameOutcome(a.instances[i], b.instances[i]) && a.results == b.results
  }

  lemma FailedEndingsAgree(task: Task, interrupts: map<InterruptId, Interrupt>,
                           interrupts': map<InterruptId, Interrupt>, i: InstanceId, inst: Instance,
                           stored: Option<Payload>, r: NodeResult, rt: Runtime, dir: AttemptDir)
    requires SameAttempt(r, rt) && r.termination != Some(Completed) && OpenBlocking(interrupts', i) == {}
    requires r.error == r.failureSummary && r.failureSummary.Some? && r.failureSummary.value != ""
    ensures
      var inProcess := Finished(task, interrupts', i, inst, stored, r, dir);
      var recovered := Recovered(task, interrupts, i, inst, stored, rt, dir);
      inProcess.result == None && recovered.result == None && SameOutcome(inProcess.instance, recovered.instance)
  {
    hide Concluded, OpenBlocking, AsProblem;
  }

  // Unsuccessful and blocked: in process it waits.
  lemma BlockedWaits(task: Task, interrupts: map<InterruptId, Interrupt>, i: InstanceId, inst: Instance,
                     stored: Option<Payload>, r: NodeResult, dir: AttemptDir)
    requires OpenBlocking(interrupts, i) != {}
    ensures Finished(task, interrupts, i, inst, stored, r, dir).instance.status == Waiting
  {
    hide Concluded, OpenBlocking, AsProblem;
  }

  lemma UnsuccessfulFails(task: Task, interrupts: map<InterruptId, Interrupt>, i: InstanceId, inst: Instance,
                          stored: Option<Payload>, rt: Runtime, dir: AttemptDir)
    requires RuntimeTermination(rt) != Completed
    ensures Recovered(task, interrupts, i, inst, stored, rt, dir).instance.status == Failed
  {
    hide Concluded, OpenBlocking, AsProblem;
  }

  lemma NotStartedFails(task: Task, interrupts: map<InterruptId, Interrupt>, i: InstanceId, inst: Instance,
                        stored: Option<Payload>, end: WorkerEnd, resumed: Option<string>, dir: AttemptDir)
    requires end.NotStarted? && OpenBlocking(interrupts, i) == {}
    ensures Finished(task, interrupts, i, inst, stored, ReturnedResult(end, resumed), dir).instance.failureKind ==
      Some(RunnerInvocation)
  {
    hide Concluded, OpenBlocking, AsProblem;
  }

  // Take an attempt in flight whose worker has ended. Ending it in process, after replies were marked as
  // applied, or crashing at that moment and recovering it, leaves the same exactly when the worker was
  // started, and completed or nothing blocks the instance.
  lemma EndingsAgreeIff(st: State, mid: State, i: InstanceId, end: WorkerEnd, dir: AttemptDir)
    requires Reachable(st) && i in st.live && OnlyApplies(st, mid)
    requires end.Ended? ==> end.failure.summary != ""
    ensures
      var finish := Finish(i, ReturnedResult(end, st.live[i].resumeSession), dir);
      var recovery := RecoveryStep(i, end, dir);
      var crashed := Next(st, Crash);
      Enabled(mid, finish) && Enabled(crashed, recovery) &&
      (EndsAlike(Next(mid, finish), Next(crashed, recovery), i) <==>
       end.Ended? && (RanToCompletion(end) || OpenBlocking(st.interrupts, i) == {}))
  {
    hide Reachable, Inv, Enabled, Next, Finished, Recovered, OpenBlocking, AppliedSome, MarkFailed, ReturnedResult;
    ReachableOk(st);
    FlightFacts(st, i);
    CrashGives(st);
    var crashed := Next(st, Crash);
    var inst := st.instances[i];
    var task, stored := st.tasks[inst.binding.task], StoredResult(st.results, i);
    var r := ReturnedResult(end, st.live[i].resumeSession);
    RecordsAgree(end, st.live[i].resumeSession, dir);
    OpenAfterApply(st.interrupts, mid.interrupts, i);
    FinishGives(mid, i, r, dir);
    RecoveryStepIsRecovery(crashed, i, end, dir);
    if end.NotStarted? {
      if OpenBlocking(st.interrupts, i) != {} {
        BlockedWaits(task, mid.interrupts, i, inst, stored, r, dir);
      } else {
        NotStartedFails(task, mid.interrupts, i, inst, stored, end, st.live[i].resumeSession, dir);
      }
      GivenUp(inst);
    } else {
      var rt := Found(end, dir).runtime;
      if RanToCompletion(end) {
        RecoveryAgrees(task, st.interrupts, mid.interrupts, i, inst, stored, r, rt, dir);
      } else if OpenBlocking(st.interrupts, i) == {} {
        FailedEndingsAgree(task, st.interrupts, mid.interrupts, i, inst, stored, r, rt, dir);
      } else {
        BlockedWaits(task, mid.interrupts, i, inst, stored, r, dir);
        UnsuccessfulFails(task, st.interrupts, i, inst, stored, rt, dir);
      }
    }
  }

  lemma FlightFacts(st: State, i: InstanceId)
    requires Inv(st) && i in st.live
    ensures Known(st, i) && st.instances[i].status == Running && i !in st.results
  {
    hide GraphOk, ControlOk;
    assert InstanceOk(st, i);
  }

  lemma GivenUp(inst: Instance)
    ensures
      var failed := MarkFailed(inst, WorkerGone, Orphaned, None, None, false);
      failed.status == Failed && failed.failureKind == Some(UnknownFailure)
  {
  }

  // Whether resuming the run retries an attempt is up to the classified failure of a worker that ran and did not
  // complete, and in process also to whether its instance waits for replies.
  lemma WorkerRetriedIff(st: State, i: InstanceId, end: WorkerEnd, dir: AttemptDir)
    requires Reachable(st) && i in st.live
    ensures
      var finish := Finish(i, ReturnedResult(end, st.live[i].resumeSession), dir);
      var recovery := RecoveryStep(i, end, dir);
      var crashed := Next(st, Crash);
      var recommended := end.Ended? && !RanToCompletion(end) && end.failure.resumeRecommended;
      Enabled(st, finish) && Enabled(crashed, recovery) &&
      var finished, recovered := Next(st, finish).instances, Next(crashed, recovery).instances;
      i in finished && i in recovered &&
      (AfterRequeue(finished[i]).status == Runnable <==> !IsBlocked(st.interrupts, i) && recommended) &&
      (AfterRequeue(recovered[i]).status == Runnable <==> recommended)
  {
    hide Reachable, Inv, Enabled, Next, ReturnedResult, AfterRequeue, IsBlocked, MarkFailed, StoreResult, Recovered,
      Finished;
    ReachableOk(st);
    FlightFacts(st, i);
    CrashGives(st);
    var crashed := Next(st, Crash);
    var r := ReturnedResult(end, st.live[i].resumeSession);
    ResultTells(end, st.live[i].resumeSession);
    RecordsAgree(end, st.live[i].resumeSession, dir);
    FinishGives(st, i, r, dir);
    RetriedIffRecommended(st, i, r, dir);
    RecoveryStepIsRecovery(crashed, i, end, dir);
    if end.Ended? {
      RecoveredRetriedIff(crashed, i, Found(end, dir).runtime, dir);
    } else {
      GivenUpNotRetried(st.instances[i]);
    }
  }

  lemma GivenUpNotRetried(inst: Instance)
    ensures AfterRequeue(MarkFailed(inst, WorkerGone, Orphaned, None, None, false)).status == Failed
  {
  }

  // ---------- what the two endings report ----------

  predicate ReportsEnd(e: Event) {
    e.AttemptFinished? || e.BecameDone? || e.BeganWaiting?
  }

  ghost predicate ReportsNoEnd(events: seq<Event>) {
    forall e :: e in events ==> !ReportsEnd(e)
  }

  lemma ConcludedReportsNoEnd(task: Task, interrupts: map<InterruptId, Interrupt>, i: InstanceId, seen: Instance,
                              dir: AttemptDir)
    ensures ReportsNoEnd(Concluded(task, interrupts, i, seen, dir).events)
  {
    hide FirstNotProduced, MissingDecisions, MarkFailed, ControlFor;
  }

  lemma RecoveredReportsNoEnd(task: Task, interrupts: map<InterruptId, Interrupt>, i: InstanceId, inst: Instance,
                              stored: Option<Payload>, rt: Runtime, dir: AttemptDir)
    ensures ReportsNoEnd(Recovered(task, interrupts, i, inst, stored, rt, dir).events)
  {
    hide Concluded, MarkFailed, OpenBlocking, AsProblem;
    ConcludedReportsNoEnd(task, interrupts, i, SeenRecovered(interrupts, i, inst, rt), dir);
  }

  // An ending in process reports that the attempt has finished, and whether its instance waits or is done.
  // Recovery reports none of that, whatever it makes of the instance.
  lemma RecoveryReportsNoEnd(st: State, i: InstanceId, end: WorkerEnd, dir: AttemptDir)
    requires Reachable(st) && i in st.live
    ensures
      var finish := Finish(i, ReturnedResult(end, st.live[i].resumeSession), dir);
      var recovery := RecoveryStep(i, end, dir);
      var crashed := Next(st, Crash);
      Enabled(st, finish) && Enabled(crashed, recovery) &&
      var inProcess, recovered := Next(st, finish), Next(crashed, recovery);
      st.log <= inProcess.log && st.log <= recovered.log &&
      AttemptFinished(i, st.live[i].attempt) in inProcess.log[|st.log|..] &&
      (BecameDone(i) in inProcess.log[|st.log|..] <==> inProcess.instances[i].status == Done) &&
      (BeganWaiting(i) in inProcess.log[|st.log|..] <==> inProcess.instances[i].status == Waiting) &&
      ReportsNoEnd(recovered.log[|st.log|..])
  {
    hide Reachable, Inv, Enabled, Next, Finished, Recovered, MarkFailed, StoreResult, ReturnedResult;
    ReachableOk(st);
    FlightFacts(st, i);
    AttemptsNumbered(st, i);
    CrashGives(st);
    var crashed := Next(st, Crash);
    var inst := st.instances[i];
    var task, stored := st.tasks[inst.binding.task], StoredResult(st.results, i);
    var r := ReturnedResult(end, st.live[i].resumeSession);
    FinishGives(st, i, r, dir);
    FinishedReports(task, st.interrupts, i, inst, stored, r, dir);
    RecoveryStepIsRecovery(crashed, i, end, dir);
    LogTail(st.log, FinishedEnding(st, i, r, dir).events + [AttemptFinished(i, inst.attempt)],
      Next(st, Finish(i, r, dir)).log);
    if end.Ended? {
      RecoveredReportsNoEnd(task, st.interrupts, i, inst, stored, Found(end, dir).runtime, dir);
      LogTail(st.log, RecoveredEnding(crashed, i, end, dir).events, Next(crashed, RecoveryStep(i, end, dir)).log);
    } else {
      LogTail(st.log, [BecameFailed(i)], Next(crashed, RecoveryStep(i, end, dir)).log);
    }
  }

  lemma LogTail(log: seq<Event>, events: seq<Event>, log': seq<Event>)
    requires log' == log + events
    ensures log <= log' && log'[|log|..] == events
  {
  }

  lemma FinishedReports(task: Task, interrupts: map<InterruptId, Interrupt>, i: InstanceId, inst: Instance,
                        stored: Option<Payload>, r: NodeResult, dir: AttemptDir)
    ensures
      var ending := Finished(task, interrupts, i, inst, stored, r, dir);
      (BecameDone(i) in ending.events <==> ending.instance.status == Done) &&
      (BeganWaiting(i) in ending.events <==> ending.instance.status == Waiting)
  {
    hide Concluded, MarkFailed, OpenBlocking, AsProblem;
    var seen := SeenFinished(interrupts, i, inst, r);
    ConcludedReportsNoEnd(task, interrupts, i, seen, dir);
    ConcludedNotWaiting(task, interrupts, i, seen, dir);
    FailedStatus(seen, TextOr(r.error, ExecFailed), ResultTermination(r), r.failureKind, AsProblem(r.failureSummary),
      r.resumeRecommended);
  }

  lemma ConcludedNotWaiting(task: Task, interrupts: map<InterruptId, Interrupt>, i: InstanceId, seen: Instance,
                            dir: AttemptDir)
    ensures Concluded(task, interrupts, i, seen, dir).instance.status in {Done, Failed}
  {
    hide Materialize, FirstNotProduced, MissingDecisions;
  }

  lemma FailedStatus(inst: Instance, error: Problem, termination: Termination, kind: Option<FailureKind>,
                     summary: Option<Problem>, resume: bool)
    ensures MarkFailed(inst, error, termination, kind, summary, resume).status == Failed
  {
  }
}
