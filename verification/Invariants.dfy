// What every step of a run keeps.
module Invariants {
  import opened Domain
  import opened TaskGraph
  import opened InstanceGraph
  import opened ControlEnvelope
  import opened RunState

  // ---------- the invariant ----------

  // The numbers of the attempts of i begun so far, in order.
  ghost function Started(log: seq<Event>, i: InstanceId): seq<nat> {
    if log == [] then [] else
      var last := log[|log| - 1];
      Started(log[..|log| - 1], i) + if last.AttemptStarted? && last.id == i then [last.attempt] else []
  }

  ghost function UpTo(n: nat): (r: seq<nat>)
    ensures |r| == n && forall k :: 0 <= k < n ==> r[k] == k + 1
  {
    if n == 0 then [] else UpTo(n - 1) + [n]
  }

  // A required decision was asked for in a blocking way and has been answered.
  ghost predicate DecisionSettled(st: State, i: InstanceId, r: RequiredDecision) {
    exists n :: n in st.interrupts && Matches(st.interrupts[n], i, r) && n in st.replies
  }

  ghost predicate DoneOk(st: State, i: InstanceId)
    requires i in st.instances && st.instances[i].binding.task in st.tasks
  {
    var inst := st.instances[i];
    var task := st.tasks[inst.binding.task];
    inst.published == task.publish && inst.error == None && inst.failureKind == None && inst.failureSummary == None &&
    (task.control.Some? && i in st.results ==> ControlOf(st.tasks, inst.binding.task, st.results, i).Some?) &&
    forall r :: r in task.requiredDecisions ==> DecisionSettled(st, i, r)
  }

  ghost predicate InstanceOk(st: State, i: InstanceId)
    requires i in st.instances
  {
    var inst := st.instances[i];
    inst.binding.task in st.tasks &&
    (inst.status != Pending && inst.status != Skipped ==>
      DependenciesSatisfied(st.tasks[inst.binding.task], st.instances, inst.binding.deps)) &&
    (inst.status == Done ==> DoneOk(st, i)) &&
    (inst.status != Done ==> i !in st.results) &&
    (inst.status == Skipped ==> inst.error == Some(UpstreamFailed) || inst.error == Some(AbortedByUser)) &&
    (i in st.live ==> inst.status == Running && st.live[i] == Request(inst.attempt, inst.session)) &&
    (inst.status == Running ==> inst.attempt > 0) &&
    Started(st.log, i) == UpTo(inst.attempt)
  }

  // A controlled task is instantiated only when its controller, in the same scope, chose it.
  ghost predicate OwnerOk(st: State, i: InstanceId)
    requires i in st.instances
  {
    var b := st.instances[i].binding;
    var owner := ControlOwner(st.tasks, b.task);
    owner.Some? ==>
      owner.value in b.deps && b.deps[owner.value] in st.instances &&
      var x := b.deps[owner.value];
      st.instances[x].binding.scope == b.scope && st.instances[x].status == Done &&
      Selects(st.tasks, GraphOf(st.instances), st.results, x, b.task)
  }

  // A scope other than the base holds its parent's values and what its controller added.
  ghost predicate ScopeFed(st: State, s: ScopeId)
    requires s in st.scopes
  {
    var scope := st.scopes[s];
    scope.creator.Some? && scope.creator.value in st.instances && st.instances[scope.creator.value].status == Done &&
    Continues(st.tasks, GraphOf(st.instances), st.results, scope.creator.value) &&
    scope.parent.Some? && scope.parent.value in st.scopes &&
    scope.values == st.scopes[scope.parent.value].values +
      NextInputs(st.tasks, GraphOf(st.instances), st.results, scope.creator.value)
  }

  ghost predicate StoreOk(st: State) {
    (forall n :: n in st.interrupts ==>
      st.interrupts[n].instance in st.instances && (st.interrupts[n].status != Open ==> n in st.replies)) &&
    (forall i :: i in st.results ==> i in st.instances) &&
    (forall i :: i in st.live ==> i in st.instances) &&
    forall i :: i !in st.instances ==> Started(st.log, i) == []
  }

  ghost predicate GraphOk(st: State) {
    ValidTasks(st.tasks) && WellFormed(st.tasks, st.scopes, GraphOf(st.instances)) &&
    ScopesOk(st.tasks, st.scopes, GraphOf(st.instances))
  }

  ghost predicate ControlOk(st: State) {
    (forall i :: i in st.instances ==> OwnerOk(st, i)) &&
    (forall s :: s in st.scopes && s != BASE ==> ScopeFed(st, s))
  }

  ghost predicate InstancesOk(st: State) {
    forall i :: i in st.instances ==> InstanceOk(st, i)
  }

  ghost predicate Inv(st: State) {
    GraphOk(st) && ControlOk(st) && InstancesOk(st) && StoreOk(st)
  }

  // ---------- what never changes back ----------

  // x stays as it is from st to st' if it is done in st.
  ghost predicate DoneKept(st: State, st': State, x: InstanceId)
    requires x in st.instances && x in st'.instances
  {
    st.instances[x].status == Done ==>
      st'.instances[x].status == Done && st'.instances[x].published == st.instances[x].published &&
      StoredResult(st'.results, x) == StoredResult(st.results, x)
  }

  ghost predicate InterruptKept(a: Interrupt, b: Interrupt) {
    b == a.(status := b.status) && (a.status != Open ==> b.status != Open)
  }

  ghost predicate Evolves(st: State, st': State) {
    st'.tasks == st.tasks && st'.userInputs == st.userInputs &&
    (forall s :: s in st.scopes ==> s in st'.scopes && st'.scopes[s] == st.scopes[s]) &&
    (forall x :: x in st.instances ==> x in st'.instances && st'.instances[x].binding == st.instances[x].binding) &&
    (forall x :: x in st.instances ==> DoneKept(st, st', x)) &&
    (forall x :: x in st.instances ==> st.instances[x].attempt <= st'.instances[x].attempt) &&
    (forall n :: n in st.interrupts ==> n in st'.interrupts && InterruptKept(st.interrupts[n], st'.interrupts[n])) &&
    st.replies.Keys <= st'.replies.Keys &&
    st.log <= st'.log
  }

  lemma EvolvesTransitive(a: State, b: State, c: State)
    requires Evolves(a, b) && Evolves(b, c)
    ensures Evolves(a, c)
  {
    forall x | x in a.instances
      ensures DoneKept(a, c, x)
    {
      assert DoneKept(a, b, x) && DoneKept(b, c, x);
    }
    forall n | n in a.interrupts
      ensures InterruptKept(a.interrupts[n], c.interrupts[n])
    {
      assert InterruptKept(a.interrupts[n], b.interrupts[n]) && InterruptKept(b.interrupts[n], c.interrupts[n]);
    }
  }

  // ---------- facts that survive ----------

  lemma SatisfiedSurvives(st: State, st': State, task: Task, deps: map<TaskId, InstanceId>)
    requires Evolves(st, st') && DependenciesSatisfied(task, st.instances, deps)
    ensures DependenciesSatisfied(task, st'.instances, deps)
  {
    forall k | 0 <= k < |task.dependsOn|
      ensures DepSatisfied(st'.instances, deps, task.dependsOn[k])
    {
      assert DepSatisfied(st.instances, deps, task.dependsOn[k]);
      assert DoneKept(st, st', deps[task.dependsOn[k].task]);
    }
  }

  lemma SettledSurvives(st: State, st': State, i: InstanceId, r: RequiredDecision)
    requires Evolves(st, st') && DecisionSettled(st, i, r)
    ensures DecisionSettled(st', i, r)
  {
    var n :| n in st.interrupts && Matches(st.interrupts[n], i, r) && n in st.replies;
    assert InterruptKept(st.interrupts[n], st'.interrupts[n]);
    assert n in st'.interrupts && Matches(st'.interrupts[n], i, r) && n in st'.replies;
  }

  lemma ControlSurvives(st: State, st': State, x: InstanceId)
    requires Evolves(st, st') && x in st.instances && st.instances[x].status == Done
    ensures ControlOf(st'.tasks, st.instances[x].binding.task, st'.results, x) ==
      ControlOf(st.tasks, st.instances[x].binding.task, st.results, x)
    ensures forall t :: Selects(st.tasks, GraphOf(st.instances), st.results, x, t) ==>
      Selects(st'.tasks, GraphOf(st'.instances), st'.results, x, t)
    ensures Continues(st.tasks, GraphOf(st.instances), st.results, x) ==>
      Continues(st'.tasks, GraphOf(st'.instances), st'.results, x) &&
      NextInputs(st'.tasks, GraphOf(st'.instances), st'.results, x) ==
        NextInputs(st.tasks, GraphOf(st.instances), st.results, x)
  {
    assert DoneKept(st, st', x);
    assert StoredResult(st'.results, x) == StoredResult(st.results, x);
    assert x in st.results <==> x in st'.results;
  }

  lemma DoneOkSurvives(st: State, st': State, i: InstanceId)
    requires Evolves(st, st') && i in st.instances && st.instances[i].status == Done
    requires st.instances[i].binding.task in st.tasks && DoneOk(st, i)
    requires st'.instances[i].error == None && st'.instances[i].failureKind == None
    requires st'.instances[i].failureSummary == None
    ensures DoneOk(st', i)
  {
    ControlSurvives(st, st', i);
    assert DoneKept(st, st', i);
    forall r | r in st.tasks[st.instances[i].binding.task].requiredDecisions
      ensures DecisionSettled(st', i, r)
    {
      SettledSurvives(st, st', i, r);
    }
  }

  // Graph facts depend on results of done instances only.
  lemma ControlOkSurvives(st: State, st': State)
    requires Evolves(st, st') && ControlOk(st)
    ensures forall i :: i in st.instances ==> OwnerOk(st', i)
    ensures forall s :: s in st.scopes && s != BASE ==> ScopeFed(st', s)
  {
    forall i | i in st.instances
      ensures OwnerOk(st', i)
    {
      assert OwnerOk(st, i);
      var b := st.instances[i].binding;
      var owner := ControlOwner(st.tasks, b.task);
      if owner.Some? {
        ControlSurvives(st, st', b.deps[owner.value]);
        assert DoneKept(st, st', b.deps[owner.value]);
      }
    }
    forall s | s in st.scopes && s != BASE
      ensures ScopeFed(st', s)
    {
      assert ScopeFed(st, s);
      ControlSurvives(st, st', st.scopes[s].creator.value);
      assert DoneKept(st, st', st.scopes[s].creator.value);
    }
  }
}
