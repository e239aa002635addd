// Progress of the scheduling loop, and agreement of its two ways to end an attempt.
module RunProgress {
  import opened Domain
  import opened TaskGraph
  import opened InstanceGraph
  import opened Iterations
  import opened ControlEnvelope
  import opened BindingTrees
  import opened RunState
  import opened Invariants
  import opened Preservation
  import opened RunTheorems

  // ---------- who is to blame for an instance that is not done ----------

  // What a sweep over all instances, in any order, leaves true of each.
  ghost predicate Swept(st: State, i: InstanceId)
    requires i in st.instances && st.instances[i].binding.task in st.tasks
  {
    var inst := st.instances[i];
    (inst.status == Waiting ==> OpenBlocking(st.interrupts, i) != {}) &&
    (inst.status == Pending ==>
      !DependenciesSatisfied(st.tasks[inst.binding.task], st.instances, inst.binding.deps) &&
      !HasFailedDependency(st, i)) &&
    (inst.status == Skipped && inst.error == Some(UpstreamFailed) ==> HasUnfinishedDependency(st, i))
  }

  ghost predicate HasUnfinishedDependency(st: State, i: InstanceId)
    requires i in st.instances
  {
    exists d :: d in st.instances[i].binding.deps && st.instances[i].binding.deps[d] in st.instances &&
      st.instances[st.instances[i].binding.deps[d]].status != Done
  }

  // A direct dependency has failed.
  ghost predicate HasFailedDependency(st: State, i: InstanceId)
    requires i in st.instances
  {
    exists d :: d in st.instances[i].binding.deps && st.instances[i].binding.deps[d] in st.instances &&
      st.instances[st.instances[i].binding.deps[d]].status == Failed
  }

  // No instance is left waiting for one that has failed.
  ghost predicate NoneAwaitsFailed(st: State) {
    forall i :: i in st.instances && HasFailedDependency(st, i) ==> st.instances[i].status != Pending
  }

  // The loop has nothing more to start.
  ghost predicate AtRest(st: State) {
    forall i :: i in st.instances ==>
      st.instances[i].binding.task in st.tasks && Swept(st, i) && st.instances[i].status != Runnable
  }

  // The task consumes a file that its upstream task does not publish.
  ghost predicate ConsumesUnpublished(tasks: Tasks, t: TaskId)
    requires t in tasks
  {
    exists k, p ::
      0 <= k < |tasks[t].dependsOn| && p in tasks[t].dependsOn[k].consume &&
      Unpublished(tasks, tasks[t].dependsOn[k], p)
  }

  ghost predicate Unpublished(tasks: Tasks, dep: Dependency, p: Path) {
    dep.kind == Context && dep.task in tasks && p !in tasks[dep.task].publish
  }

  // Skipped by an abort of the run.
  ghost predicate IsAborted(st: State, x: InstanceId) {
    x in st.instances && st.instances[x].status == Skipped && st.instances[x].error == Some(AbortedByUser)
  }

  // Reasons for an instance not to be done that lie with the instance itself.
  ghost predicate RootCause(st: State, x: InstanceId)
    requires x in st.instances && st.instances[x].binding.task in st.tasks
  {
    var inst := st.instances[x];
    inst.status == Failed || inst.status == Waiting || inst.status == Running ||
    IsAborted(st, x) ||
    (inst.status == Pending && ConsumesUnpublished(st.tasks, inst.binding.task))
  }

  lemma {:induction false} BlameUpstream(st: State, i: InstanceId) returns (x: InstanceId)
    requires Typed(st.tasks, GraphOf(st.instances)) && InstancesOk(st) && AtRest(st)
    requires i in st.instances && st.instances[i].status != Done
    ensures x in Upstream(GraphOf(st.instances), i) && x in st.instances && st.instances[x].binding.task in st.tasks
    ensures RootCause(st, x)
    decreases i
  {
    var inst := st.instances[i];
    assert InstanceOk(st, i) && Swept(st, i);
    if RootCause(st, i) {
      x := i;
    } else {
      var d := UnfinishedDependency(st, i);
      x := BlameUpstream(st, inst.binding.deps[d]);
      assert x in Upstream(GraphOf(st.instances), GraphOf(st.instances)[i].deps[d]);
    }
  }

  // x is i or upstream of it, and the reason lies with x.
  ghost predicate IsToBlame(st: State, i: InstanceId, x: InstanceId) {
    x in st.instances && st.instances[x].binding.task in st.tasks && RootCause(st, x) &&
    InLineage(st, i, st.instances[x].binding.task, x)
  }

  // When nothing more can start, every instance that is not done has a root cause upstream.
  lemma Blame(st: State, i: InstanceId)
    requires Reachable(st) && AtRest(st) && i in st.instances && st.instances[i].status != Done
    ensures exists x :: IsToBlame(st, i, x)
  {
    hide Reachable, Inv, GraphOk, InstancesOk, AtRest, RootCause, Upstream;
    ReachableOk(st);
    InvParts(st);
    GraphParts(st);
    var x := BlameUpstream(st, i);
    assert IsToBlame(st, i, x);
  }

  lemma UnfinishedDependency(st: State, i: InstanceId) returns (d: TaskId)
    requires Typed(st.tasks, GraphOf(st.instances)) && InstancesOk(st) && AtRest(st)
    requires i in st.instances && st.instances[i].status != Done && st.instances[i].binding.task in st.tasks
    requires !RootCause(st, i)
    ensures d in st.instances[i].binding.deps && st.instances[i].binding.deps[d] in st.instances
    ensures st.instances[st.instances[i].binding.deps[d]].status != Done && st.instances[i].binding.deps[d] < i
  {
    var b := GraphOf(st.instances)[i];
    assert InstanceOk(st, i) && Swept(st, i) && BindingTyped(st.tasks, GraphOf(st.instances), b);
    if st.instances[i].status == Skipped {
      d :| d in b.deps && b.deps[d] in st.instances && st.instances[b.deps[d]].status != Done;
    } else {
      var k :| 0 <= k < |st.tasks[b.task].dependsOn| &&
        !DepSatisfied(st.instances, b.deps, st.tasks[b.task].dependsOn[k]);
      d := st.tasks[b.task].dependsOn[k].task;
      assert d in b.deps;
      PublishedEnough(st, i, k);
    }
  }

  // A done dependency satisfies its edge unless the task consumes a file that is never published.
  lemma PublishedEnough(st: State, i: InstanceId, k: nat)
    requires Typed(st.tasks, GraphOf(st.instances)) && InstancesOk(st) && i in st.instances
    requires st.instances[i].binding.task in st.tasks
    requires k < |st.tasks[st.instances[i].binding.task].dependsOn|
    ensures
      var b := st.instances[i].binding;
      var dep := st.tasks[b.task].dependsOn[k];
      dep.task in b.deps && b.deps[dep.task] in st.instances &&
      st.instances[b.deps[dep.task]].binding.task == dep.task &&
      (st.instances[b.deps[dep.task]].status == Done ==>
        (DepSatisfied(st.instances, b.deps, dep) <==> forall p :: p in dep.consume ==> !Unpublished(st.tasks, dep, p)))
  {
    var b := GraphOf(st.instances)[i];
    var dep := st.tasks[b.task].dependsOn[k];
    assert BindingTyped(st.tasks, GraphOf(st.instances), b);
    assert dep.task in DepTasks(st.tasks[b.task]);
    var y := b.deps[dep.task];
    assert InstanceOk(st, y) && GraphOf(st.instances)[y].task == dep.task;
    if st.instances[y].status == Done {
      assert DoneOk(st, y);
      forall p | p in dep.consume
        ensures Unpublished(st.tasks, dep, p) <==> dep.kind == Context && p !in st.instances[y].published
      {
      }
    }
  }

  // A task that consumes an unpublished file never becomes ready, in any reachable state.
  lemma StarvedNeverReady(st: State, i: InstanceId)
    requires Reachable(st) && i in st.instances && st.instances[i].binding.task in st.tasks
    requires ConsumesUnpublished(st.tasks, st.instances[i].binding.task)
    ensures st.instances[i].status == Pending || st.instances[i].status == Skipped
  {
    hide Reachable, GraphOk, ControlOk, StoreOk;
    ReachableOk(st);
    GraphParts(st);
    assert InstanceOk(st, i);
    var dependsOn := st.tasks[st.instances[i].binding.task].dependsOn;
    var k, p :| 0 <= k < |dependsOn| && p in dependsOn[k].consume && Unpublished(st.tasks, dependsOn[k], p);
    PublishedEnough(st, i, k);
    assert !DepSatisfied(st.instances, st.instances[i].binding.deps, dependsOn[k]);
  }

  // ---------- the status reported for the run ----------

  function FinalStatus(statuses: set<Status>): RunStatus {
    if Running in statuses then RunRunning
    else if Failed in statuses then RunFailed
    else if Waiting in statuses then RunWaiting
    else if Runnable in statuses || Pending in statuses then RunPending
    else RunDone
  }

  function Statuses(instances: map<InstanceId, Instance>): set<Status> {
    set i | i in instances :: instances[i].status
  }

  ghost predicate SomeIs(instances: map<InstanceId, Instance>, status: Status) {
    exists i :: i in instances && instances[i].status == status
  }

  // What the status of a run tells about its instances.
  ghost predicate Reports(status: RunStatus, instances: map<InstanceId, Instance>) {
    (status == RunRunning <==> SomeIs(instances, Running)) &&
    (status == RunFailed <==> !SomeIs(instances, Running) && SomeIs(instances, Failed)) &&
    (status == RunWaiting <==>
      !SomeIs(instances, Running) && !SomeIs(instances, Failed) && SomeIs(instances, Waiting)) &&
    (status == RunPending <==>
      !SomeIs(instances, Running) && !SomeIs(instances, Failed) && !SomeIs(instances, Waiting) &&
      (SomeIs(instances, Runnable) || SomeIs(instances, Pending))) &&
    (status == RunDone <==> forall i :: i in instances ==> instances[i].status in {Done, Skipped})
  }

  // Every status but done is reported on account of some instance that shows it, the gravest one first.
  lemma StatusReports(instances: map<InstanceId, Instance>)
    ensures Reports(FinalStatus(Statuses(instances)), instances)
  {
    forall status
      ensures SomeIs(instances, status) <==> status in Statuses(instances)
    {
    }
    forall i | i in instances
      ensures SomeIs(instances, instances[i].status)
    {
    }
  }

  ghost predicate NeverAborted(st: State) {
    forall i :: i in st.instances ==> !IsAborted(st, i)
  }

  // At rest and never aborted, the run is reported done exactly when every instance is done.
  lemma DoneMeansDone(st: State)
    requires Reachable(st) && AtRest(st) && NeverAborted(st)
    ensures FinalStatus(Statuses(st.instances)) == RunDone <==>
      forall i :: i in st.instances ==> st.instances[i].status == Done
  {
    hide Reachable, InLineage;
    if FinalStatus(Statuses(st.instances)) == RunDone {
      forall i | i in st.instances
        ensures st.instances[i].status == Done
      {
        if st.instances[i].status != Done {
          Blame(st, i);
          var x :| IsToBlame(st, i, x);
          RootCauseShows(st, x);
        }
      }
    }
  }

  lemma RootCauseShows(st: State, x: InstanceId)
    requires NeverAborted(st) && x in st.instances && st.instances[x].binding.task in st.tasks && RootCause(st, x)
    ensures FinalStatus(Statuses(st.instances)) != RunDone
  {
    assert st.instances[x].status in Statuses(st.instances);
  }

  // x is i or upstream of it, and was skipped by an abort.
  ghost predicate SkippedByAbort(st: State, i: InstanceId, x: InstanceId) {
    x in st.instances && InLineage(st, i, st.instances[x].binding.task, x) && IsAborted(st, x)
  }

  // After an abort that is not so: at rest the run is reported done exactly when each instance is done,
  // or was skipped because of an abort.
  lemma ReportedDoneIff(st: State)
    requires Reachable(st) && AtRest(st)
    ensures FinalStatus(Statuses(st.instances)) == RunDone <==> forall i :: i in st.instances ==>
      st.instances[i].status == Done || (st.instances[i].status == Skipped && exists x :: SkippedByAbort(st, i, x))
  {
    hide Reachable, InLineage, AtRest;
    StatusesDecide(st.instances);
    if FinalStatus(Statuses(st.instances)) == RunDone {
      forall i | i in st.instances && st.instances[i].status != Done
        ensures exists x :: SkippedByAbort(st, i, x)
      {
        Blame(st, i);
        var x :| IsToBlame(st, i, x);
        assert SkippedByAbort(st, i, x);
      }
    }
  }

  lemma StatusesDecide(instances: map<InstanceId, Instance>)
    ensures FinalStatus(Statuses(instances)) == RunDone <==>
      forall i :: i in instances ==> instances[i].status == Done || instances[i].status == Skipped
  {
    assert forall i :: i in instances ==> instances[i].status in Statuses(instances);
  }

  // What an abort has skipped stays skipped along every later run: nothing makes it pending again.
  lemma {:induction false} AbortedStays(st: State, actions: seq<Action>, st': State, i: InstanceId)
    requires Reachable(st) && IsRun(st, actions, st') && IsAborted(st, i)
    ensures IsAborted(st', i)
    decreases |actions|
  {
    hide Reachable, Enabled, Next, IsAborted;
    if actions != [] {
      var mid := Next(st, actions[0]);
      ReachableStep(st, actions[0], mid);
      AbortedStep(st, actions[0], i);
      AbortedStays(mid, actions[1..], st', i);
    }
  }

  lemma AbortedStep(st: State, a: Action, i: InstanceId)
    requires Reachable(st) && Enabled(st, a) && IsAborted(st, i)
    ensures IsAborted(Next(st, a), i)
  {
    hide Reachable, Inv, Enabled, Next, IsAborted;
    AbortedKnown(st, i);
    if Sets(a, i) {
      AbortedNotSet(st, a, i);
      RefreshLeavesAborted(st, i);
    } else {
      OthersStay(st, a, i);
      StillAborted(st, Next(st, a), i);
    }
  }

  // The step is about instance i.
  predicate Sets(a: Action, i: InstanceId) {
    match a
    case AddInstance(id, _) => id == i
    case Refresh(id) => id == i
    case Begin(id) => id == i
    case Finish(id, _, _) => id == i
    case Recover(id, _, _) => id == i
    case GiveUp(id, _, _) => id == i
    case Abort(id) => id == i
    case Requeue(id) => id == i
    case _ => false
  }

  lemma OthersStay(st: State, a: Action, i: InstanceId)
    requires Enabled(st, a) && !Sets(a, i) && i in st.instances
    ensures i in Next(st, a).instances && Next(st, a).instances[i] == st.instances[i]
  {
    hide IsCandidate, MergedActivation, Continues, Closed, Finished, Recovered, Refreshed, MarkFailed, Aborted, Retried,
      Begun, ChildScope, OwnsScope;
  }

  lemma AbortedKnown(st: State, i: InstanceId)
    requires Reachable(st) && IsAborted(st, i)
    ensures i in st.instances && i !in st.live
  {
    hide Reachable, GraphOk, ControlOk, StoreOk;
    ReachableOk(st);
    assert InstanceOk(st, i);
  }

  lemma AbortedNotSet(st: State, a: Action, i: InstanceId)
    requires Enabled(st, a) && Sets(a, i) && IsAborted(st, i) && i !in st.live
    ensures a == Refresh(i)
  {
    hide IsCandidate, MergedActivation, Continues, Closed, OwnsScope;
  }

  lemma StillAborted(st: State, st': State, i: InstanceId)
    requires IsAborted(st, i) && i in st'.instances && st'.instances[i] == st.instances[i]
    ensures IsAborted(st', i)
  {
  }

  lemma RefreshLeavesAborted(st: State, i: InstanceId)
    requires Enabled(st, Refresh(i)) && IsAborted(st, i)
    ensures IsAborted(Next(st, Refresh(i)), i)
  {
    hide Refreshed;
    RefreshKeepsAborted(st.tasks[st.instances[i].binding.task], st.instances, st.interrupts, i);
  }

  lemma RefreshKeepsAborted(task: Task, instances: map<InstanceId, Instance>, interrupts: map<InterruptId, Interrupt>,
                            i: InstanceId)
    requires i in instances && instances[i].status == Skipped && instances[i].error == Some(AbortedByUser)
    ensures
      var after := Refreshed(task, instances, interrupts, i);
      after.status == Skipped && after.error == Some(AbortedByUser)
  {
  }

  predicate IsAbort(a: Action) {
    a.Abort?
  }

  lemma {:induction false} RunWithoutAbort(st: State, actions: seq<Action>, st': State)
    requires Inv(st) && IsRun(st, actions, st') && NeverAborted(st)
    requires forall k :: 0 <= k < |actions| ==> !IsAbort(actions[k])
    ensures NeverAborted(st')
    decreases |actions|
  {
    hide Inv, Enabled, Next, NeverAborted;
    if actions != [] {
      assert !IsAbort(actions[0]);
      StepWithoutAbort(st, actions[0]);
      StepKeeps(st, actions[0]);
      RunWithoutAbort(Next(st, actions[0]), actions[1..], st');
    }
  }

  lemma StepWithoutAbort(st: State, a: Action)
    requires Inv(st) && Enabled(st, a) && !IsAbort(a) && NeverAborted(st)
    ensures NeverAborted(Next(st, a))
  {
    hide GraphOk, ControlOk, StoreOk, IsCandidate, MergedActivation, Continues, Finished, Recovered, Refreshed,
      InstanceOk;
    if a.Finish? || a.Recover? {
      EndsSettled(st, a);
    } else if a.Refresh? {
      RefreshNoAbort(st.tasks[st.instances[a.id].binding.task], st.instances, st.interrupts, a.id);
    }
  }

  lemma RefreshNoAbort(task: Task, instances: map<InstanceId, Instance>, interrupts: map<InterruptId, Interrupt>,
                       i: InstanceId)
    requires i in instances && !(instances[i].status == Skipped && instances[i].error == Some(AbortedByUser))
    ensures
      var after := Refreshed(task, instances, interrupts, i);
      !(after.status == Skipped && after.error == Some(AbortedByUser))
  {
  }

  // ---------- bounded execution ----------

  // The steps of the scheduling loop and of its attempts, and replies: no recovery, retry, abort or crash.
  predicate IsOrdinary(a: Action) {
    IsQuiet(a) || a.Answer?
  }

  ghost predicate AllOrdinary(actions: seq<Action>) {
    forall k :: 0 <= k < |actions| ==> IsOrdinary(actions[k])
  }

  // The same without the replies.
  predicate IsQuiet(a: Action) {
    a.NewScope? || a.AddInstance? || a.Refresh? || a.Begin? || a.Finish? || a.Ask? || a.Apply?
  }

  ghost predicate AllQuiet(actions: seq<Action>) {
    forall k :: 0 <= k < |actions| ==> IsQuiet(actions[k])
  }

  // The instances whose attempts were begun, in order.
  ghost function Begins(actions: seq<Action>): seq<InstanceId> {
    if actions == [] then []
    else (if actions[0].Begin? then [actions[0].id] else []) + Begins(actions[1..])
  }

  lemma {:induction false} BeginsJoin(a: seq<Action>, b: seq<Action>)
    ensures Begins(a + b) == Begins(a) + Begins(b)
  {
    if a == [] {
      assert a + b == b;
    } else {
      var all := a + b;
      assert all[0] == a[0] && all[1..] == a[1..] + b;
      BeginsJoin(a[1..], b);
      assert Begins(all) == (if a[0].Begin? then [a[0].id] else []) + Begins(a[1..] + b);
      assert Begins(a) == (if a[0].Begin? then [a[0].id] else []) + Begins(a[1..]);
    }
  }

  // The instance will not be started again unless somebody replies or retries.
  ghost predicate Spent(st: State, i: InstanceId) {
    i in st.instances &&
    (st.instances[i].status in {Running, Done, Failed} ||
     (st.instances[i].status == Waiting && OpenBlocking(st.interrupts, i) != {}))
  }

  lemma SpentStep(st: State, a: Action, i: InstanceId)
    requires Inv(st) && Enabled(st, a) && IsQuiet(a) && Spent(st, i)
    ensures Spent(Next(st, a), i) && a != Begin(i)
  {
    hide GraphOk, ControlOk, StoreOk, IsCandidate, MergedActivation, Continues, Finished, Refreshed, OpenBlocking,
      InstancesOk, Spent, Closed;
    SpentKnown(st, i);
    match a
    case Finish(x, r, dir) =>
      if x == i {
        SpentByFinish(st, a);
      } else {
        SpentAside(st, Next(st, a), i);
      }
    case Refresh(x) =>
      if x == i {
        RefreshSpends(st, i);
      } else {
        SpentAside(st, Next(st, a), i);
      }
    case Ask(_, _) => StillOpen(st, a, i);
    case Apply(_) => StillOpen(st, a, i);
    case NewScope(_, _) => SpentAside(st, Next(st, a), i);
    case AddInstance(_, _) => SpentAside(st, Next(st, a), i);
    case Begin(_) => SpentAside(st, Next(st, a), i);
    case _ =>
  }

  lemma SpentKnown(st: State, i: InstanceId)
    requires Spent(st, i)
    ensures i in st.instances && st.instances[i].status != Runnable
  {
  }

  lemma SpentAside(st: State, st': State, i: InstanceId)
    requires Spent(st, i) && i in st'.instances && st'.instances[i] == st.instances[i]
    requires st'.interrupts == st.interrupts
    ensures Spent(st', i)
  {
  }

  lemma RefreshSpends(st: State, i: InstanceId)
    requires Enabled(st, Refresh(i)) && Spent(st, i)
    ensures Spent(Next(st, Refresh(i)), i)
  {
    hide Refreshed, OpenBlocking;
    RefreshedSpent(st.tasks[st.instances[i].binding.task], st.instances, st.interrupts, i);
  }

  lemma SpentByFinish(st: State, a: Action)
    requires InstancesOk(st) && a.Finish? && Enabled(st, a)
    ensures Spent(Next(st, a), a.id)
  {
    hide OpenBlocking, Finished;
    assert InstanceOk(st, a.id);
    FinishedOk(st, a.id, a.result, a.dir);
    FinishedWaitsForOpen(st.tasks[st.instances[a.id].binding.task], st.interrupts, a.id, st.instances[a.id],
      StoredResult(st.results, a.id), a.result, a.dir);
  }

  lemma FinishedWaitsForOpen(task: Task, interrupts: map<InterruptId, Interrupt>, i: InstanceId, inst: Instance,
                             stored: Option<Payload>, r: NodeResult, dir: AttemptDir)
    ensures Finished(task, interrupts, i, inst, stored, r, dir).instance.status == Waiting ==>
      OpenBlocking(interrupts, i) != {}
  {
  }

  lemma RefreshedSpent(task: Task, instances: map<InstanceId, Instance>, interrupts: map<InterruptId, Interrupt>,
                       i: InstanceId)
    requires i in instances
    requires instances[i].status in {Running, Done, Failed} ||
      (instances[i].status == Waiting && OpenBlocking(interrupts, i) != {})
    ensures Refreshed(task, instances, interrupts, i).status == instances[i].status
  {
  }

  lemma StillOpen(st: State, a: Action, i: InstanceId)
    requires Enabled(st, a) && (a.Ask? || a.Apply?) && Spent(st, i)
    ensures Spent(Next(st, a), i)
  {
    assert OpenBlocking(st.interrupts, i) <= OpenBlocking(Next(st, a).interrupts, i);
  }

  lemma {:induction false} SpentRun(st: State, actions: seq<Action>, st': State, i: InstanceId)
    requires Inv(st) && IsRun(st, actions, st') && AllQuiet(actions) && Spent(st, i)
    ensures Spent(st', i) && i !in Begins(actions)
    decreases |actions|
  {
    hide Inv, Enabled, Next, Spent;
    if actions != [] {
      assert IsQuiet(actions[0]);
      SpentStep(st, actions[0], i);
      StepKeeps(st, actions[0]);
      SpentRun(Next(st, actions[0]), actions[1..], st', i);
    }
  }

  // While nobody replies, no instance is attempted twice.
  lemma {:induction false} BegunOnce(st: State, actions: seq<Action>, st': State)
    requires Inv(st) && IsRun(st, actions, st') && AllQuiet(actions)
    ensures NoDuplicates(Begins(actions)) && forall i :: i in Begins(actions) ==> i in st'.instances
    decreases |actions|
  {
    hide Inv, Enabled, Next, Evolves;
    if actions != [] {
      var mid := Next(st, actions[0]);
      StepKeeps(st, actions[0]);
      BegunOnce(mid, actions[1..], st');
      if actions[0].Begin? {
        var i := actions[0].id;
        BeginSpends(st, i);
        SpentRun(mid, actions[1..], st', i);
        assert Spent(st', i);
      }
    }
  }

  // Said of any two begun attempts of a stretch in which nobody replies.
  lemma NeverBegunTwice(st: State, actions: seq<Action>, st': State, j: nat, k: nat)
    requires Reachable(st) && IsRun(st, actions, st') && AllQuiet(actions)
    requires j < k < |actions| && actions[j].Begin? && actions[k].Begin?
    ensures actions[j].id != actions[k].id
  {
    hide Reachable, IsRun, Inv, AllQuiet;
    ReachableOk(st);
    BegunOnce(st, actions, st');
    BeginsApart(actions, j, k);
  }

  lemma BeginsApart(actions: seq<Action>, j: nat, k: nat)
    requires j < k < |actions| && actions[j].Begin? && actions[k].Begin? && NoDuplicates(Begins(actions))
    ensures actions[j].id != actions[k].id
  {
    var first, second := actions[..k], actions[k..];
    assert first + second == actions && first[j] == actions[j] && second[0] == actions[k];
    BeginsJoin(first, second);
    BeginsMember(first, j);
    var m :| 0 <= m < |Begins(first)| && Begins(first)[m] == actions[j].id;
    assert Begins(actions)[m] == actions[j].id && Begins(actions)[|Begins(first)|] == actions[k].id;
  }

  lemma {:induction false} BeginsMember(actions: seq<Action>, j: nat)
    requires j < |actions| && actions[j].Begin?
    ensures actions[j].id in Begins(actions)
  {
    if j > 0 {
      assert actions[1..][j - 1] == actions[j];
      BeginsMember(actions[1..], j - 1);
    }
  }

  lemma BeginSpends(st: State, i: InstanceId)
    requires Enabled(st, Begin(i))
    ensures Spent(Next(st, Begin(i)), i)
  {
  }

  // The number of replies saved.
  ghost function Answers(actions: seq<Action>): nat {
    if actions == [] then 0 else (if actions[0].Answer? then 1 else 0) + Answers(actions[1..])
  }

  lemma {:induction false} AnswersJoin(a: seq<Action>, b: seq<Action>)
    ensures Answers(a + b) == Answers(a) + Answers(b)
  {
    if a == [] {
      assert a + b == b;
    } else {
      assert (a + b)[0] == a[0] && (a + b)[1..] == a[1..] + b;
      AnswersJoin(a[1..], b);
    }
  }

  ghost function SpentOnes(st: State): set<InstanceId> {
    set i | i in st.instances && Spent(st, i)
  }

  // An attempt spends its instance, and a reply frees at most the one instance it is for.
  lemma SpentOnesStep(st: State, a: Action)
    requires Inv(st) && Enabled(st, a) && IsOrdinary(a)
    ensures |SpentOnes(st)| + (if a.Begin? then 1 else 0) <= |SpentOnes(Next(st, a))| + if a.Answer? then 1 else 0
  {
    hide Inv, Spent, Enabled, Next;
    var more := if a.Begin? then {a.id} else {};
    var less := if a.Answer? then {AskedBy(st, a)} else {};
    forall i | i in SpentOnes(st) - less
      ensures i in SpentOnes(Next(st, a))
    {
      if a.Answer? {
        AnswerFreesOne(st, a, i);
      } else {
        SpentStep(st, a, i);
      }
      SpentPresent(Next(st, a), i);
    }
    if a.Begin? {
      BeginSpends(st, a.id);
      SpentPresent(Next(st, a), a.id);
      NotYetSpent(st, a.id);
    }
    assert SpentOnes(st) - less + more <= SpentOnes(Next(st, a));
    CardinalityBound(SpentOnes(st), more, less, SpentOnes(Next(st, a)));
  }

  lemma CardinalityBound(s: set<InstanceId>, more: set<InstanceId>, less: set<InstanceId>, s': set<InstanceId>)
    requires s - less + more <= s' && s !! more
    ensures |s| + |more| <= |s'| + |less|
  {
    SubsetSize(s - less + more, s');
    assert |s - less + more| == |s - less| + |more|;
    SubsetSize(s * less, less);
    assert s == (s - less) + (s * less);
  }

  lemma {:induction false} SubsetSize<T(!new)>(s: set<T>, s': set<T>)
    requires s <= s'
    ensures |s| <= |s'|
  {
    if x :| x in s {
      SubsetSize(s - {x}, s' - {x});
    }
  }

  // The instance a saved reply is for.
  function AskedBy(st: State, a: Action): InstanceId {
    if a.Answer? && a.interrupt in st.interrupts then st.interrupts[a.interrupt].instance else 0
  }

  lemma AnswerFreesOne(st: State, a: Action, i: InstanceId)
    requires Enabled(st, a) && a.Answer? && Spent(st, i) && i != AskedBy(st, a)
    ensures Spent(Next(st, a), i)
  {
    assert OpenBlocking(Next(st, a).interrupts, i) == OpenBlocking(st.interrupts, i);
  }

  lemma SpentPresent(st: State, i: InstanceId)
    requires Spent(st, i)
    ensures i in SpentOnes(st)
  {
  }

  lemma NotYetSpent(st: State, i: InstanceId)
    requires Enabled(st, Begin(i))
    ensures !Spent(st, i)
  {
  }

  lemma {:induction false} BeginsCounted(st: State, actions: seq<Action>, st': State)
    requires Inv(st) && IsRun(st, actions, st') && AllOrdinary(actions)
    ensures |Begins(actions)| + |SpentOnes(st)| <= |SpentOnes(st')| + Answers(actions)
    decreases |actions|
  {
    hide Inv, Enabled, Next, SpentOnes;
    if actions != [] {
      assert IsOrdinary(actions[0]);
      SpentOnesStep(st, actions[0]);
      StepKeeps(st, actions[0]);
      BeginsCounted(Next(st, actions[0]), actions[1..], st');
    }
  }

  // So the loop begins at most one attempt for each instance there is in the end and each reply.
  lemma AttemptsBounded(st: State, actions: seq<Action>, st': State)
    requires Reachable(st) && IsRun(st, actions, st') && AllOrdinary(actions)
    ensures |Begins(actions)| <= |st'.instances| + Answers(actions)
  {
    hide Reachable, Inv, IsRun, Spent, AllOrdinary;
    ReachableOk(st);
    BeginsCounted(st, actions, st');
    SubsetSize(SpentOnes(st'), st'.instances.Keys);
  }

  ghost predicate NoLoops(tasks: Tasks) {
    forall t :: t in tasks && tasks[t].control.Some? ==> !tasks[t].control.value.LoopMode?
  }

  // Without loop controllers there are at most as many instances as tasks.
  lemma InstancesWithoutLoops(st: State)
    requires Reachable(st) && NoLoops(st.tasks)
    ensures |st.instances| <= |st.tasks|
  {
    hide Reachable, Inv, WellFormed, InstancesOk, StoreOk, ValidTasks, ScopesOk, Typed, AllPlaced, KeysUnique;
    ReachableOk(st);
    InvParts(st);
    BasePresent(st);
    assert st.scopes.Keys == {BASE} by {
      assert forall s :: s in st.scopes && s != BASE ==> ScopeFed(st, s);
    }
    GraphParts(st);
    AtMostTasks(st.tasks, st.scopes, GraphOf(st.instances));
    assert GraphOf(st.instances).Keys == st.instances.Keys;
    assert |GraphOf(st.instances)| == |st.instances|;
  }

  // With antichain seeds, or in a clean graph, there are at most as many as tasks times scopes.
  lemma InstancesTimesScopes(st: State)
    requires Reachable(st) && (AntichainSeeds(st.tasks) || Clean(st.tasks, st.scopes, GraphOf(st.instances)))
    ensures |st.instances| <= |st.tasks| * |st.scopes|
  {
    hide Reachable, Inv, WellFormed, InstancesOk, StoreOk, ValidTasks, AntichainSeeds, ScopesOk, Clean;
    ReachableOk(st);
    InvParts(st);
    GraphParts(st);
    if AntichainSeeds(st.tasks) {
      AntichainClean(st.tasks, st.scopes, GraphOf(st.instances));
    }
    AtMostTasksTimesScopes(st.tasks, st.scopes, GraphOf(st.instances));
    assert GraphOf(st.instances).Keys == st.instances.Keys;
    assert |GraphOf(st.instances)| == |st.instances|;
  }

  // ---------- when an attempt ends done ----------

  // Ending in process looks at everything but the status the instance has: an attempt that ends after
  // its instance was settled by somebody else settles it again.
  lemma EndsDoneIff(task: Task, interrupts: map<InterruptId, Interrupt>, i: InstanceId, inst: Instance,
                    stored: Option<Payload>, r: NodeResult, dir: AttemptDir)
    ensures Finished(task, interrupts, i, inst, stored, r, dir).instance.status == Done <==>
      OpenBlocking(interrupts, i) == {} && r.success && !Materialize(task, i, dir).Refused? &&
      (forall p :: p in task.publish ==> p in dir.files) &&
      forall d :: d in task.requiredDecisions ==> DecisionMade(interrupts, i, d)
    ensures forall status ::
      Finished(task, interrupts, i, inst.(status := status), stored, r, dir) ==
      Finished(task, interrupts, i, inst, stored, r, dir)
  {
    hide Concluded, OpenBlocking, DecisionMade, AsProblem, Materialize;
    var seen := SeenFinished(interrupts, i, inst, r);
    ConcludedDoneIff(task, interrupts, i, seen, dir);
    forall status
      ensures Finished(task, interrupts, i, inst.(status := status), stored, r, dir) ==
        Finished(task, interrupts, i, inst, stored, r, dir)
    {
      ConcludedForStatus(task, interrupts, i, seen, status, dir);
    }
  }

  // The status plays no part in how an attempt is concluded.
  lemma ConcludedForStatus(task: Task, interrupts: map<InterruptId, Interrupt>, i: InstanceId, seen: Instance,
                           status: Status, dir: AttemptDir)
    ensures Concluded(task, interrupts, i, seen.(status := status), dir) == Concluded(task, interrupts, i, seen, dir)
  {
    hide Materialize, FirstNotProduced, MissingDecisions;
  }

  lemma ConcludedDoneIff(task: Task, interrupts: map<InterruptId, Interrupt>, i: InstanceId, seen: Instance,
                         dir: AttemptDir)
    ensures Concluded(task, interrupts, i, seen, dir).instance.status == Done <==>
      !Materialize(task, i, dir).Refused? && (forall p :: p in task.publish ==> p in dir.files) &&
      forall d :: d in task.requiredDecisions ==> DecisionMade(interrupts, i, d)
  {
    hide Materialize, FirstNotProduced, MissingDecisions, DecisionMade;
    AllProduced(task.publish, dir.files);
    MissingDecisionsExact(interrupts, i, task.requiredDecisions);
  }

  // What an attempt of i that ended well and waits for nobody still has to satisfy, besides its result.
  ghost predicate Delivered(task: Task, interrupts: map<InterruptId, Interrupt>, i: InstanceId, dir: AttemptDir) {
    OpenBlocking(interrupts, i) == {} && (forall p :: p in task.publish ==> p in dir.files) &&
    forall d :: d in task.requiredDecisions ==> DecisionMade(interrupts, i, d)
  }

  ghost predicate EndsSilent(ending: Ending) {
    ending.instance.status == Done && ending.result == None
  }

  // A controller ends done without any stored result, in process and by recovery alike, exactly when it
  // delivered all else and its result document is just null.
  lemma SilentControllerIff(task: Task, interrupts: map<InterruptId, Interrupt>, i: InstanceId, inst: Instance,
                            stored: Option<Payload>, r: NodeResult, rt: Runtime, dir: AttemptDir)
    requires task.control.Some?
    ensures EndsSilent(Finished(task, interrupts, i, inst, stored, r, dir)) <==>
      r.success && dir.result == JsonNull && Delivered(task, interrupts, i, dir)
    ensures EndsSilent(Recovered(task, interrupts, i, inst, stored, rt, dir)) <==>
      RuntimeTermination(rt) == Completed && dir.result == JsonNull && Delivered(task, interrupts, i, dir)
  {
    hide Concluded, OpenBlocking, DecisionMade, AsProblem;
    var seen := SeenFinished(interrupts, i, inst, r);
    ConcludedSilentIff(task, interrupts, i, seen, dir);
    ConcludedSilentIff(task, interrupts, i, SeenRecovered(interrupts, i, inst, rt), dir);
  }

  // The instance with what is known of its attempt, before its result is looked at.
  function SeenFinished(interrupts: map<InterruptId, Interrupt>, i: InstanceId, inst: Instance,
                        r: NodeResult): Instance {
    inst.(termination := Some(ResultTermination(r)), failureKind := r.failureKind,
          failureSummary := AsProblem(r.failureSummary), resumeRecommended := r.resumeRecommended,
          session := if r.session.Some? then r.session else inst.session, blocking := OpenBlocking(interrupts, i))
  }

  function SeenRecovered(interrupts: map<InterruptId, Interrupt>, i: InstanceId, inst: Instance,
                         rt: Runtime): Instance {
    inst.(termination := Some(RuntimeTermination(rt)), failureKind := rt.failureKind,
          failureSummary := AsProblem(rt.failureSummary), resumeRecommended := rt.resumeRecommended,
          blocking := OpenBlocking(interrupts, i))
  }

  lemma ConcludedSilentIff(task: Task, interrupts: map<InterruptId, Interrupt>, i: InstanceId, seen: Instance,
                           dir: AttemptDir)
    requires task.control.Some?
    ensures EndsSilent(Concluded(task, interrupts, i, seen, dir)) <==>
      dir.result == JsonNull && (forall p :: p in task.publish ==> p in dir.files) &&
      forall d :: d in task.requiredDecisions ==> DecisionMade(interrupts, i, d)
  {
    hide FirstNotProduced, MissingDecisions, ControlFor, DecisionMade;
    AllProduced(task.publish, dir.files);
    MissingDecisionsExact(interrupts, i, task.requiredDecisions);
  }

  lemma {:induction false} AllProduced(publish: seq<Path>, files: set<Path>)
    ensures FirstNotProduced(publish, files) == None <==> forall p :: p in publish ==> p in files
  {
    if publish != [] {
      AllProduced(publish[1..], files);
      assert forall p :: p in publish <==> p == publish[0] || p in publish[1..];
    }
  }

  // ---------- ending an attempt in process and after a crash ----------

  // The runtime record and the returned result describe the same attempt.
  ghost predicate SameAttempt(r: NodeResult, rt: Runtime) {
    r.termination.Some? && rt.termination == r.termination && r.success == (r.termination == Some(Completed)) &&
    rt.failureKind == r.failureKind && rt.failureSummary == r.failureSummary &&
    rt.resumeRecommended == r.resumeRecommended
  }

  // interrupts' differs from interrupts only by resolved interrupts having been applied.
  ghost predicate AppliedSome(interrupts: map<InterruptId, Interrupt>, interrupts': map<InterruptId, Interrupt>) {
    interrupts'.Keys == interrupts.Keys &&
    forall n :: n in interrupts ==>
      interrupts'[n] == interrupts[n] ||
      (interrupts[n].status == Resolved && interrupts'[n] == interrupts[n].(status := InterruptStatus.Applied))
  }

  lemma {:induction false} MissingAfterApply(interrupts: map<InterruptId, Interrupt>,
                                             interrupts': map<InterruptId, Interrupt>, i: InstanceId,
                                             required: seq<RequiredDecision>)
    requires AppliedSome(interrupts, interrupts')
    ensures MissingDecisions(interrupts', i, required) == MissingDecisions(interrupts, i, required)
  {
    if required != [] {
      MissingAfterApply(interrupts, interrupts', i, required[1..]);
      if DecisionMade(interrupts, i, required[0]) {
        var n :| n in interrupts && Matches(interrupts[n], i, required[0]);
        assert Matches(interrupts'[n], i, required[0]);
      }
      if DecisionMade(interrupts', i, required[0]) {
        var n :| n in interrupts' && Matches(interrupts'[n], i, required[0]);
        assert Matches(interrupts[n], i, required[0]);
      }
    }
  }

  lemma OpenAfterApply(interrupts: map<InterruptId, Interrupt>, interrupts': map<InterruptId, Interrupt>, i: InstanceId)
    requires AppliedSome(interrupts, interrupts')
    ensures OpenBlocking(interrupts', i) == OpenBlocking(interrupts, i)
  {
  }

  function SeenCompleted(interrupts: map<InterruptId, Interrupt>, i: InstanceId, inst: Instance,
                         kind: Option<FailureKind>, summary: Option<string>, resume: bool,
                         session: Option<string>): Instance {
    inst.(termination := Some(Completed), failureKind := kind, failureSummary := AsProblem(summary),
          resumeRecommended := resume, blocking := OpenBlocking(interrupts, i), session := session)
  }

  ghost predicate SameEnd(a: Ending, b: Ending) {
    a.instance == b.instance && a.result == b.result
  }

  lemma FinishedCompleted(task: Task, interrupts: map<InterruptId, Interrupt>, i: InstanceId, inst: Instance,
                          stored: Option<Payload>, r: NodeResult, dir: AttemptDir)
    requires r.success && r.termination == Some(Completed)
    ensures
      var session := if r.session.Some? then r.session else inst.session;
      var seen := SeenCompleted(interrupts, i, inst, r.failureKind, r.failureSummary, r.resumeRecommended, session);
      var ending := Finished(task, interrupts, i, inst, stored, r, dir);
      if seen.blocking != {} then ending.instance == PutToWait(seen) && ending.result == stored
      else SameEnd(ending, Concluded(task, interrupts, i, seen, dir))
  {
    hide Concluded, OpenBlocking, AsProblem;
  }

  lemma RecoveredCompleted(task: Task, interrupts: map<InterruptId, Interrupt>, i: InstanceId, inst: Instance,
                           stored: Option<Payload>, rt: Runtime, dir: AttemptDir)
    requires rt.termination == Some(Completed)
    ensures
      var seen := SeenCompleted(interrupts, i, inst, rt.failureKind, rt.failureSummary, rt.resumeRecommended,
        inst.session);
      var ending := Recovered(task, interrupts, i, inst, stored, rt, dir);
      if seen.blocking != {} then ending.instance == PutToWait(seen) && ending.result == stored
      else SameEnd(ending, Concluded(task, interrupts, i, seen, dir))
  {
    hide Concluded, OpenBlocking, AsProblem;
  }

  // A completed attempt ends in the same instance and the same stored result, up to the session,
  // although only the in-process ending has moved resolved interrupts to applied.
  lemma RecoveryAgrees(task: Task, interrupts: map<InterruptId, Interrupt>, interrupts': map<InterruptId, Interrupt>,
                       i: InstanceId, inst: Instance, stored: Option<Payload>, r: NodeResult, rt: Runtime,
                       dir: AttemptDir)
    requires SameAttempt(r, rt) && AppliedSome(interrupts, interrupts') && r.termination == Some(Completed)
    ensures
      var inProcess := Finished(task, interrupts', i, inst, stored, r, dir);
      var recovered := Recovered(task, interrupts, i, inst, stored, rt, dir);
      inProcess.result == recovered.result &&
      inProcess.instance.(session := inst.session) == recovered.instance
  {
    hide Finished, Recovered, Concluded, OpenBlocking, AppliedSome;
    OpenAfterApply(interrupts, interrupts', i);
    FinishedCompleted(task, interrupts', i, inst, stored, r, dir);
    RecoveredCompleted(task, interrupts, i, inst, stored, rt, dir);
    var session := if r.session.Some? then r.session else inst.session;
    var seen := SeenCompleted(interrupts, i, inst, r.failureKind, r.failureSummary, r.resumeRecommended, inst.session);
    assert SeenCompleted(interrupts', i, inst, r.failureKind, r.failureSummary, r.resumeRecommended, session) ==
      seen.(session := session);
    ConcludedAfterApply(task, interrupts, interrupts', i, seen.(session := session), dir);
    ConcludedForSession(task, interrupts, i, seen, session, dir);
  }

  lemma ConcludedAfterApply(task: Task, interrupts: map<InterruptId, Interrupt>,
                            interrupts': map<InterruptId, Interrupt>, i: InstanceId, seen: Instance, dir: AttemptDir)
    requires AppliedSome(interrupts, interrupts')
    ensures Concluded(task, interrupts', i, seen, dir) == Concluded(task, interrupts, i, seen, dir)
  {
    MissingAfterApply(interrupts, interrupts', i, task.requiredDecisions);
  }

  // The session plays no part in how a completed attempt is concluded.
  lemma ConcludedForSession(task: Task, interrupts: map<InterruptId, Interrupt>, i: InstanceId, seen: Instance,
                            session: Option<string>, dir: AttemptDir)
    ensures
      var a := Concluded(task, interrupts, i, seen, dir);
      var b := Concluded(task, interrupts, i, seen.(session := session), dir);
      b.result == a.result && b.instance == a.instance.(session := session) && a.instance.session == seen.session
  {
    hide Materialize, FirstNotProduced, MissingDecisions;
  }

  // In general the two endings give the same status exactly when the attempt completed or nothing
  // blocks the instance: recovery fails an unsuccessful attempt without looking at its interrupts.
  lemma RecoveryStatusAgreesIff(task: Task, interrupts: map<InterruptId, Interrupt>, i: InstanceId, inst: Instance,
                                stored: Option<Payload>, r: NodeResult, rt: Runtime, dir: AttemptDir)
    requires SameAttempt(r, rt)
    ensures Finished(task, interrupts, i, inst, stored, r, dir).instance.status ==
      Recovered(task, interrupts, i, inst, stored, rt, dir).instance.status
      <==> r.termination == Some(Completed) || OpenBlocking(interrupts, i) == {}
  {
    hide Concluded, OpenBlocking;
    if r.termination == Some(Completed) {
      RecoveryAgrees(task, interrupts, interrupts, i, inst, stored, r, rt, dir);
    }
  }
}
