// Every step keeps the invariant and undoes nothing that is settled.
module Preservation {
  import opened Domain
  import opened TaskGraph
  import opened InstanceGraph
  import opened ControlEnvelope
  import opened RunState
  import opened Invariants

  // ---------- the log ----------

  ghost predicate NoStarts(events: seq<Event>) {
    forall k :: 0 <= k < |events| ==> !events[k].AttemptStarted?
  }

  lemma {:induction false} StartedAppend(log: seq<Event>, events: seq<Event>, i: InstanceId)
    requires NoStarts(events)
    ensures Started(log + events, i) == Started(log, i)
    decreases |events|
  {
    if events == [] {
      assert log + events == log;
    } else {
      var init := events[..|events| - 1];
      assert (log + events)[..|log + events| - 1] == log + init;
      StartedAppend(log, init, i);
    }
  }

  lemma StartedBegin(log: seq<Event>, i: InstanceId, n: nat, x: InstanceId)
    ensures Started(log + [AttemptStarted(i, n)], x) == Started(log, x) + if x == i then [n] else []
  {
    assert (log + [AttemptStarted(i, n)])[..|log|] == log;
  }

  // ---------- steps that touch one instance ----------

  // Only instance i, its stored result, its attempt in flight and the log differ.
  ghost predicate Touches(st: State, st': State, i: InstanceId)
    requires i in st.instances
  {
    i in st'.instances && st'.instances == st.instances[i := st'.instances[i]] &&
    st' == st.(instances := st'.instances, results := st'.results, log := st'.log, live := st'.live) &&
    st'.instances[i].binding == st.instances[i].binding && st.instances[i].attempt <= st'.instances[i].attempt &&
    DoneKept(st, st', i) && st.log <= st'.log &&
    forall x :: x != i ==> SameAside(st, st', x)
  }

  ghost predicate SameAside(st: State, st': State, x: InstanceId) {
    StoredResult(st'.results, x) == StoredResult(st.results, x) &&
    Started(st'.log, x) == Started(st.log, x) &&
    (x in st'.live ==> x in st.live && st'.live[x] == st.live[x])
  }

  lemma TouchEvolves(st: State, st': State, i: InstanceId)
    requires i in st.instances && Touches(st, st', i)
    ensures Evolves(st, st')
    ensures GraphOf(st'.instances) == GraphOf(st.instances)
  {
    forall x | x in st.instances
      ensures DoneKept(st, st', x)
    {
      if x != i {
        assert SameAside(st, st', x);
      }
    }
  }

  lemma TouchStore(st: State, st': State, i: InstanceId)
    requires StoreOk(st) && i in st.instances && Touches(st, st', i)
    ensures StoreOk(st')
  {
    forall x | x != i
      ensures x in st'.results ==> x in st.instances
      ensures x in st'.live ==> x in st.instances
      ensures x !in st.instances ==> Started(st'.log, x) == []
    {
      assert SameAside(st, st', x);
    }
  }

  lemma TouchKeeps(st: State, st': State, i: InstanceId)
    requires Inv(st) && i in st.instances && Touches(st, st', i) && InstanceOk(st', i)
    ensures Inv(st') && Evolves(st, st')
  {
    hide WellFormed, ScopesOk, ValidTasks, OwnerOk, ScopeFed, InstanceOk, StoreOk;
    TouchEvolves(st, st', i);
    TouchStore(st, st', i);
    forall x | x in st'.instances
      ensures InstanceOk(st', x)
    {
      if x != i {
        AsideInstanceOk(st, st', x);
      }
    }
    hide Evolves, Touches;
    ControlOkSurvives(st, st');
  }

  // A new status for i, with events that start no attempt.
  lemma SetInstanceTouches(st: State, i: InstanceId, inst: Instance, events: seq<Event>)
    requires i in st.instances && NoStarts(events)
    requires inst.binding == st.instances[i].binding && inst.attempt == st.instances[i].attempt
    requires st.instances[i].status == Done ==> inst.status == Done && inst.published == st.instances[i].published
    ensures Touches(st, SetInstance(st, i, inst, events), i)
    ensures Started(SetInstance(st, i, inst, events).log, i) == Started(st.log, i)
  {
    forall x {
      StartedAppend(st.log, events, x);
    }
    forall x
      ensures SameAside(st, SetInstance(st, i, inst, events), x)
    {
    }
  }

  // The dependencies of i are untouched by a step that touches i.
  lemma OwnDependenciesSatisfied(st: State, st': State, i: InstanceId)
    requires i in st.instances && Touches(st, st', i) && st.instances[i].binding.task in st.tasks
    requires DependenciesSatisfied(st.tasks[st.instances[i].binding.task], st.instances, st.instances[i].binding.deps)
    ensures DependenciesSatisfied(st'.tasks[st'.instances[i].binding.task], st'.instances,
      st'.instances[i].binding.deps)
  {
    TouchEvolves(st, st', i);
    SatisfiedSurvives(st, st', st.tasks[st.instances[i].binding.task], st.instances[i].binding.deps);
  }

  // ---------- refresh ----------

  // A visit changes the status only as the dependencies and the inbox allow.
  lemma RefreshedAllowed(task: Task, instances: map<InstanceId, Instance>, interrupts: map<InterruptId, Interrupt>,
                         i: InstanceId)
    requires i in instances
    requires instances[i].status == Skipped ==>
      instances[i].error == Some(UpstreamFailed) || instances[i].error == Some(AbortedByUser)
    ensures
      var before, after := instances[i], Refreshed(task, instances, interrupts, i);
      after.binding == before.binding && after.attempt == before.attempt && after.session == before.session &&
      after.published == before.published &&
      (after.status == before.status || after.status == Runnable || after.status == Pending ||
        after.status == Skipped) &&
      (after.status == before.status ==>
        (after.error == before.error && after.failureKind == before.failureKind &&
          after.failureSummary == before.failureSummary)
        || after.status == Pending || after.status == Waiting) &&
      (before.status in {Runnable, Running, Done, Failed} ==> after.status == before.status) &&
      (after.status == Runnable && before.status != Runnable && before.status != Waiting ==>
        DependenciesSatisfied(task, instances, before.binding.deps)) &&
      (after.status == Skipped ==> after.error == Some(UpstreamFailed) || after.error == Some(AbortedByUser)) &&
      NoStarts(RefreshEvents(before, after, i))
  {
  }

  lemma RefreshKeeps(st: State, i: InstanceId)
    requires Inv(st) && Enabled(st, Refresh(i))
    ensures Inv(Next(st, Refresh(i))) && Evolves(st, Next(st, Refresh(i)))
  {
    hide GraphOk, ControlOk, StoreOk;
    var inst := st.instances[i];
    assert InstanceOk(st, i);
    var after := Refreshed(st.tasks[inst.binding.task], st.instances, st.interrupts, i);
    var st' := Next(st, Refresh(i));
    RefreshedAllowed(st.tasks[inst.binding.task], st.instances, st.interrupts, i);
    hide Refreshed, RefreshEvents;
    SetInstanceTouches(st, i, after, RefreshEvents(inst, after, i));
    if after.status != Pending && after.status != Skipped {
      OwnDependenciesSatisfied(st, st', i);
    }
    if after.status == Done {
      TouchEvolves(st, st', i);
      DoneOkSurvives(st, st', i);
    }
    TouchKeeps(st, st', i);
  }

  // ---------- attempts ----------

  lemma BeginGives(st: State, i: InstanceId)
    requires Enabled(st, Begin(i))
    ensures i in st.instances && st.instances[i].status == Runnable
    ensures
      var st', inst := Next(st, Begin(i)), Begun(st.instances[i]);
      st'.instances == st.instances[i := inst] && st'.tasks == st.tasks && st'.results == st.results &&
      st'.live == st.live[i := Request(inst.attempt, inst.session)] &&
      st'.log == st.log + [AttemptStarted(i, inst.attempt)] &&
      st' == st.(instances := st'.instances, live := st'.live, log := st'.log)
  {
  }

  lemma BeginTouchesOnly(st: State, i: InstanceId)
    requires Enabled(st, Begin(i))
    ensures Touches(st, Next(st, Begin(i)), i)
    ensures Started(Next(st, Begin(i)).log, i) == Started(st.log, i) + [st.instances[i].attempt + 1]
  {
    hide Enabled, Next, Started;
    BeginGives(st, i);
    var st' := Next(st, Begin(i));
    forall x {
      StartedBegin(st.log, i, st.instances[i].attempt + 1, x);
    }
    forall x | x != i
      ensures SameAside(st, st', x)
    {
    }
  }

  lemma BeginKeeps(st: State, i: InstanceId)
    requires Inv(st) && Enabled(st, Begin(i))
    ensures Inv(Next(st, Begin(i))) && Evolves(st, Next(st, Begin(i)))
  {
    hide GraphOk, ControlOk, StoreOk, Evolves, Touches, DependenciesSatisfied, InstanceOk;
    BegunInstanceOk(st, i);
    BeginTouchesOnly(st, i);
    TouchKeeps(st, Next(st, Begin(i)), i);
  }

  lemma BegunInstanceOk(st: State, i: InstanceId)
    requires InstancesOk(st) && Enabled(st, Begin(i))
    ensures i in Next(st, Begin(i)).instances && InstanceOk(Next(st, Begin(i)), i)
  {
    hide Touches, DependenciesSatisfied, DoneOk, Enabled, Next, Started;
    BeginGives(st, i);
    assert InstanceOk(st, i);
    BeginTouchesOnly(st, i);
    OwnDependenciesSatisfied(st, Next(st, Begin(i)), i);
    assert UpTo(st.instances[i].attempt + 1) == UpTo(st.instances[i].attempt) + [st.instances[i].attempt + 1];
  }

  lemma {:induction false} MissingDecisionsExact(interrupts: map<InterruptId, Interrupt>, i: InstanceId,
                                                 required: seq<RequiredDecision>)
    ensures MissingDecisions(interrupts, i, required) == [] <==>
      forall r :: r in required ==> DecisionMade(interrupts, i, r)
  {
    if required != [] {
      MissingDecisionsExact(interrupts, i, required[1..]);
      assert forall r :: r in required <==> r == required[0] || r in required[1..];
    }
  }

  // An ending is acceptable for i: done only when everything is in place.
  ghost predicate EndingOk(st: State, i: InstanceId, ending: Ending)
    requires i in st.instances && st.instances[i].binding.task in st.tasks
  {
    var inst := ending.instance;
    var task := st.tasks[st.instances[i].binding.task];
    inst.binding == st.instances[i].binding && inst.attempt == st.instances[i].attempt && NoStarts(ending.events) &&
    (inst.status == Waiting || inst.status == Failed || inst.status == Done) &&
    (inst.status != Done ==> ending.result == None) &&
    (inst.status == Done ==>
      OpenBlocking(st.interrupts, i) == {} &&
      inst.published == task.publish && inst.error == None && inst.failureKind == None && inst.failureSummary == None &&
      (task.control.Some? && ending.result.Some? ==> ControlFor(task, ending.result.value).Some?) &&
      MissingDecisions(st.interrupts, i, task.requiredDecisions) == [])
  }

  lemma ConcludedOk(st: State, i: InstanceId, seen: Instance, dir: AttemptDir)
    requires i in st.instances && st.instances[i].binding.task in st.tasks && OpenBlocking(st.interrupts, i) == {}
    requires seen.binding == st.instances[i].binding && seen.attempt == st.instances[i].attempt
    ensures EndingOk(st, i, Concluded(st.tasks[st.instances[i].binding.task], st.interrupts, i, seen, dir))
  {
    hide Materialize, FirstNotProduced, MissingDecisions, OpenBlocking, ControlFor;
    MaterializeOk(st.tasks[st.instances[i].binding.task], i, dir);
  }

  lemma MaterializeOk(task: Task, i: InstanceId, dir: AttemptDir)
    ensures
      var m := Materialize(task, i, dir);
      (m.Keep? ==> NoStarts(m.events)) &&
      (task.control.Some? && m.Keep? ==> ControlFor(task, m.payload).Some?) &&
      (task.control.Some? && !m.Refused? ==> (m.Nothing? <==> dir.result.JsonNull?))
  {
  }

  lemma FinishedOk(st: State, i: InstanceId, r: NodeResult, dir: AttemptDir)
    requires i in st.instances && st.instances[i].binding.task in st.tasks && i !in st.results
    ensures EndingOk(st, i, Finished(st.tasks[st.instances[i].binding.task], st.interrupts, i, st.instances[i],
      StoredResult(st.results, i), r, dir))
  {
    hide Concluded, OpenBlocking, MissingDecisions, AsProblem, TextOr, ResultTermination, RuntimeTermination,
      TerminationProblem;
    forall seen: Instance | OpenBlocking(st.interrupts, i) == {} && seen.binding == st.instances[i].binding &&
      seen.attempt == st.instances[i].attempt
      ensures EndingOk(st, i, Concluded(st.tasks[st.instances[i].binding.task], st.interrupts, i, seen, dir))
    {
      ConcludedOk(st, i, seen, dir);
    }
  }

  lemma RecoveredOk(st: State, i: InstanceId, r: Runtime, dir: AttemptDir)
    requires i in st.instances && st.instances[i].binding.task in st.tasks && i !in st.results
    ensures EndingOk(st, i, Recovered(st.tasks[st.instances[i].binding.task], st.interrupts, i, st.instances[i],
      StoredResult(st.results, i), r, dir))
  {
    hide Concluded, OpenBlocking, MissingDecisions, AsProblem, TextOr, ResultTermination, RuntimeTermination,
      TerminationProblem;
    forall seen: Instance | OpenBlocking(st.interrupts, i) == {} && seen.binding == st.instances[i].binding &&
      seen.attempt == st.instances[i].attempt
      ensures EndingOk(st, i, Concluded(st.tasks[st.instances[i].binding.task], st.interrupts, i, seen, dir))
    {
      ConcludedOk(st, i, seen, dir);
    }
  }

  // A decision that was made and blocks nothing any more has been answered.
  lemma MadeIsSettled(st: State, i: InstanceId, r: RequiredDecision)
    requires StoreOk(st) && OpenBlocking(st.interrupts, i) == {} && DecisionMade(st.interrupts, i, r)
    ensures DecisionSettled(st, i, r)
  {
    var n :| n in st.interrupts && Matches(st.interrupts[n], i, r);
    assert n !in OpenBlocking(st.interrupts, i);
  }

  lemma EndingTouches(st: State, st': State, i: InstanceId, ending: Ending, more: seq<Event>)
    requires i in st.instances && st.instances[i].status != Done && NoStarts(ending.events) && NoStarts(more)
    requires ending.instance.binding == st.instances[i].binding && ending.instance.attempt == st.instances[i].attempt
    requires st' == SetEnding(st, i, ending, more).(live := st'.live)
    requires forall x :: x in st'.live ==> x in st.live && st'.live[x] == st.live[x]
    ensures Touches(st, st', i) && Started(st'.log, i) == Started(st.log, i)
  {
    assert st'.log == st.log + (ending.events + more);
    forall x {
      StartedAppend(st.log, ending.events + more, x);
    }
    forall x | x != i
      ensures SameAside(st, st', x)
    {
    }
  }

  lemma EndingKeeps(st: State, i: InstanceId, ending: Ending, more: seq<Event>, live: map<InstanceId, Request>)
    requires Inv(st) && i in st.instances && st.instances[i].status == Running && EndingOk(st, i, ending)
    requires NoStarts(more)
    requires live == st.live - {i}
    ensures Inv(SetEnding(st, i, ending, more).(live := live))
    ensures Evolves(st, SetEnding(st, i, ending, more).(live := live))
  {
    hide GraphOk, ControlOk, Evolves, Touches;
    assert InstanceOk(st, i);
    var st' := SetEnding(st, i, ending, more).(live := live);
    EndingTouches(st, st', i, ending, more);
    OwnDependenciesSatisfied(st, st', i);
    if ending.instance.status == Done {
      EndingDone(st, i, ending, st');
    }
    TouchKeeps(st, st', i);
  }

  lemma EndingDone(st: State, i: InstanceId, ending: Ending, st': State)
    requires StoreOk(st) && i in st.instances && st.instances[i].binding.task in st.tasks
    requires EndingOk(st, i, ending) && ending.instance.status == Done
    requires st' == st.(instances := st.instances[i := ending.instance],
                        results := StoreResult(st.results, i, ending.result), log := st'.log, live := st'.live)
    ensures DoneOk(st', i)
  {
    var task := st.tasks[ending.instance.binding.task];
    MissingDecisionsExact(st.interrupts, i, task.requiredDecisions);
    forall r | r in task.requiredDecisions
      ensures DecisionSettled(st', i, r)
    {
      MadeIsSettled(st, i, r);
      var n :| n in st.interrupts && Matches(st.interrupts[n], i, r) && n in st.replies;
      assert Matches(st'.interrupts[n], i, r);
    }
  }

  lemma FinishKeeps(st: State, i: InstanceId, r: NodeResult, dir: AttemptDir)
    requires Inv(st) && Enabled(st, Finish(i, r, dir))
    ensures Inv(Next(st, Finish(i, r, dir))) && Evolves(st, Next(st, Finish(i, r, dir)))
  {
    hide GraphOk, ControlOk, Finished, EndingOk, Evolves, StoreOk;
    assert InstanceOk(st, i);
    FinishedOk(st, i, r, dir);
    var inst := st.instances[i];
    var ending := Finished(st.tasks[inst.binding.task], st.interrupts, i, inst, StoredResult(st.results, i), r, dir);
    EndingKeeps(st, i, ending, [AttemptFinished(i, inst.attempt)], st.live - {i});
  }

  lemma RecoverKeeps(st: State, i: InstanceId, r: Runtime, dir: AttemptDir)
    requires Inv(st) && Enabled(st, Recover(i, r, dir))
    ensures Inv(Next(st, Recover(i, r, dir))) && Evolves(st, Next(st, Recover(i, r, dir)))
  {
    hide GraphOk, ControlOk, Recovered, EndingOk, Evolves, StoreOk;
    assert InstanceOk(st, i);
    RecoveredOk(st, i, r, dir);
    var inst := st.instances[i];
    var ending := Recovered(st.tasks[inst.binding.task], st.interrupts, i, inst, StoredResult(st.results, i), r, dir);
    EndingKeeps(st, i, ending, [], st.live);
  }

  // ---------- recovery by hand ----------

  // A running, waiting or failed instance may move among these and back to runnable.
  lemma StatusKeeps(st: State, i: InstanceId, inst: Instance, events: seq<Event>)
    requires Inv(st) && i in st.instances && NoStarts(events)
    requires inst.binding == st.instances[i].binding && inst.attempt == st.instances[i].attempt && i !in st.live
    requires st.instances[i].status != Done && inst.status != Done && inst.status != Running
    requires inst.status == Skipped ==> inst.error == Some(AbortedByUser)
    requires inst.status != Skipped ==>
      inst.status != Pending && st.instances[i].status != Pending && st.instances[i].status != Skipped
    ensures Inv(SetInstance(st, i, inst, events)) && Evolves(st, SetInstance(st, i, inst, events))
  {
    hide GraphOk, ControlOk, StoreOk, Evolves;
    assert InstanceOk(st, i);
    var st' := SetInstance(st, i, inst, events);
    SetInstanceTouches(st, i, inst, events);
    if inst.status != Skipped {
      OwnDependenciesSatisfied(st, st', i);
    }
    TouchKeeps(st, st', i);
  }

  // ---------- interrupts ----------

  // The store's interrupts grow or advance; nothing else but the log and replies changes.
  ghost predicate AdvancesInbox(st: State, st': State) {
    st' == st.(interrupts := st'.interrupts, replies := st'.replies, log := st'.log, live := st'.live) &&
    (forall n :: n in st.interrupts ==> n in st'.interrupts && InterruptKept(st.interrupts[n], st'.interrupts[n])) &&
    st.replies.Keys <= st'.replies.Keys && st.log <= st'.log &&
    (forall x :: Started(st'.log, x) == Started(st.log, x)) &&
    (forall x :: x in st'.live ==> x in st.live && st'.live[x] == st.live[x])
  }

  lemma InboxKeeps(st: State, st': State)
    requires Inv(st) && AdvancesInbox(st, st') && StoreOk(st')
    ensures Inv(st') && Evolves(st, st')
  {
    hide WellFormed, ScopesOk, ValidTasks, OwnerOk, ScopeFed;
    assert Evolves(st, st');
    forall x | x in st'.instances
      ensures InstanceOk(st', x)
    {
      assert InstanceOk(st, x);
      if st.instances[x].status == Done {
        DoneOkSurvives(st, st', x);
      }
    }
    ControlOkSurvives(st, st');
  }

  lemma InboxStepAdvances(st: State, a: Action)
    requires Enabled(st, a) && (a.Ask? || a.Answer? || a.Apply? || a.Crash?)
    ensures AdvancesInbox(st, Next(st, a))
  {
    var st' := Next(st, a);
    var events := st'.log[|st.log|..];
    assert st'.log == st.log + events && NoStarts(events);
    forall x
      ensures Started(st'.log, x) == Started(st.log, x)
    {
      StartedAppend(st.log, events, x);
    }
  }

  lemma InboxStepStore(st: State, a: Action)
    requires StoreOk(st) && Enabled(st, a) && (a.Ask? || a.Answer? || a.Apply? || a.Crash?)
    requires AdvancesInbox(st, Next(st, a))
    ensures StoreOk(Next(st, a))
  {
  }

  lemma InboxStepKeeps(st: State, a: Action)
    requires Inv(st) && Enabled(st, a) && (a.Ask? || a.Answer? || a.Apply? || a.Crash?)
    ensures Inv(Next(st, a)) && Evolves(st, Next(st, a))
  {
    hide GraphOk, ControlOk, InstancesOk, StoreOk, Evolves, AdvancesInbox;
    InboxStepAdvances(st, a);
    InboxStepStore(st, a);
    InboxKeeps(st, Next(st, a));
  }

  // ---------- new instances ----------

  lemma TasksAboveUnion(g: Graph, t: TaskId, deps: map<TaskId, InstanceId>, u: TaskId)
    requires Closed(g) && DepsIn(g, deps)
    ensures u in TasksAbove(g, t, deps) <==>
      u == t || exists d :: d in deps && u in TasksAbove(g, g[deps[d]].task, g[deps[d]].deps)
  {
    forall d | d in deps
      ensures u in TasksOf(g, Upstream(g, deps[d])) <==> u in TasksAbove(g, g[deps[d]].task, g[deps[d]].deps)
    {
      assert Upstream(g, deps[d]) == {deps[d]} + UpstreamOf(g, g[deps[d]].deps);
    }
    if u in TasksOf(g, UpstreamOf(g, deps)) {
      var x :| x in UpstreamOf(g, deps) && x in g && g[x].task == u;
      var d :| d in deps && x in Upstream(g, deps[d]);
      assert u in TasksOf(g, Upstream(g, deps[d]));
    }
    if d :| d in deps && u in TasksAbove(g, g[deps[d]].task, g[deps[d]].deps) {
      var x :| x in Upstream(g, deps[d]) && x in g && g[x].task == u;
      assert x in UpstreamOf(g, deps);
    }
  }

  ghost predicate AllActivationsOk(tasks: Tasks, g: Graph) {
    Closed(g) && forall i :: i in g ==> ActivationOk(tasks, g, g[i])
  }

  lemma ActivationKeys(tasks: Tasks, g: Graph, b: Binding)
    requires AllActivationsOk(tasks, g) && DepsIn(g, b.deps) && MergedActivation(tasks, g, b.task, b.deps, b.activation)
    ensures forall c :: c in b.activation <==> OwnsOneOf(tasks, TasksAbove(g, b.task, b.deps), c)
  {
    hide ControlOwner, TasksAbove;
    forall d | d in b.deps
      ensures forall c :: c in g[b.deps[d]].activation <==>
        OwnsOneOf(tasks, TasksAbove(g, g[b.deps[d]].task, g[b.deps[d]].deps), c)
    {
      assert ActivationOk(tasks, g, g[b.deps[d]]);
    }
    forall u {
      TasksAboveUnion(g, b.task, b.deps, u);
    }
    forall c | OwnsOneOf(tasks, TasksAbove(g, b.task, b.deps), c)
      ensures c in b.activation
    {
      var u :| u in TasksAbove(g, b.task, b.deps) && ControlOwner(tasks, u) == Some(c);
      if u != b.task {
        var d :| d in b.deps && u in TasksAbove(g, g[b.deps[d]].task, g[b.deps[d]].deps);
        assert c in g[b.deps[d]].activation;
      }
    }
    forall c | c in b.activation
      ensures OwnsOneOf(tasks, TasksAbove(g, b.task, b.deps), c)
    {
      if ControlOwner(tasks, b.task) == Some(c) {
        assert b.task in TasksAbove(g, b.task, b.deps);
      } else {
        var d :| d in b.deps && c in g[b.deps[d]].activation;
        var u :| u in TasksAbove(g, g[b.deps[d]].task, g[b.deps[d]].deps) && ControlOwner(tasks, u) == Some(c);
        assert u in TasksAbove(g, b.task, b.deps);
      }
    }
  }

  lemma ActivationValues(tasks: Tasks, g: Graph, b: Binding)
    requires AllActivationsOk(tasks, g) && DepsIn(g, b.deps) && MergedActivation(tasks, g, b.task, b.deps, b.activation)
    requires forall d :: d in b.deps ==> g[b.deps[d]].task == d
    ensures forall c :: c in b.activation ==>
      b.activation[c] in UpstreamOf(g, b.deps) && b.activation[c] in g && g[b.activation[c]].task == c
  {
    hide ControlOwner, TasksAbove, OwnsOneOf;
    forall c | c in b.activation
      ensures b.activation[c] in UpstreamOf(g, b.deps) && b.activation[c] in g && g[b.activation[c]].task == c
    {
      if ControlOwner(tasks, b.task) == Some(c) {
        assert b.deps[c] in Upstream(g, b.deps[c]);
      } else {
        var d :| d in b.deps && c in g[b.deps[d]].activation;
        var y := b.deps[d];
        assert ActivationOk(tasks, g, g[y]);
        assert g[y].activation[c] in UpstreamOf(g, g[y].deps);
        assert g[y].activation[c] in Upstream(g, y);
      }
    }
  }

  lemma CandidatePlaced(tasks: Tasks, scopes: map<ScopeId, InputScope>, g: Graph, results: map<InstanceId, Payload>,
                        b: Binding)
    requires Closed(g) && IsCandidate(tasks, scopes, g, results, b.task, b.scope, b.deps)
    ensures BindingTyped(tasks, g, b) && BindingPlaced(tasks, scopes, g, b) && Coherent(g, UpstreamOf(g, b.deps))
  {
    forall d | d in b.deps
      ensures g[b.deps[d]].task == d && DepPlaced(tasks, scopes, g, b.scope, d, b.deps[d])
    {
      assert MayFill(tasks, scopes, g, results, b.task, b.scope, d, b.deps[d]);
    }
  }

  // A candidate with the merged activation bindings is a well-formed binding.
  lemma CandidateIsOk(tasks: Tasks, scopes: map<ScopeId, InputScope>, g: Graph, results: map<InstanceId, Payload>,
                      b: Binding)
    requires WellFormed(tasks, scopes, g) && IsCandidate(tasks, scopes, g, results, b.task, b.scope, b.deps)
    requires MergedActivation(tasks, g, b.task, b.deps, b.activation)
    ensures BindingOk(tasks, scopes, g, b)
  {
    assert AllActivationsOk(tasks, g) by {
      assert forall i :: i in g ==> BindingOk(tasks, scopes, g, g[i]);
    }
    hide WellFormed, MergedActivation, IsCandidate, ActivationOk;
    CandidatePlaced(tasks, scopes, g, results, b);
    ActivationKeys(tasks, g, b);
    ActivationValues(tasks, g, b);
    assert ActivationOk(tasks, g, b) by {
      ActivationFrom(tasks, g, b);
    }
  }

  lemma ActivationFrom(tasks: Tasks, g: Graph, b: Binding)
    requires Closed(g) && DepsIn(g, b.deps)
    requires forall c :: c in b.activation <==> OwnsOneOf(tasks, TasksAbove(g, b.task, b.deps), c)
    requires forall c :: c in b.activation ==>
      b.activation[c] in UpstreamOf(g, b.deps) && b.activation[c] in g && g[b.activation[c]].task == c
    ensures ActivationOk(tasks, g, b)
  {
  }

  lemma ScopesOkExtends(tasks: Tasks, scopes: map<ScopeId, InputScope>, g: Graph, g': Graph)
    requires ScopesOk(tasks, scopes, g) && Extends(g, g')
    ensures ScopesOk(tasks, scopes, g')
  {
    forall s | s in scopes && s != BASE
      ensures ScopeOk(tasks, scopes, g', s)
    {
      assert ScopeOk(tasks, scopes, g, s);
    }
  }

  ghost predicate KeyUnused(g: Graph, b: Binding) {
    forall i :: i in g ==> !SameKey(g[i], b)
  }

  lemma GraphWithCandidate(tasks: Tasks, scopes: map<ScopeId, InputScope>, g: Graph, results: map<InstanceId, Payload>,
                           id: InstanceId, b: Binding)
    requires WellFormed(tasks, scopes, g) && ScopesOk(tasks, scopes, g)
    requires id !in g && KeyUnused(g, b) && forall d :: d in b.deps ==> b.deps[d] < id
    requires IsCandidate(tasks, scopes, g, results, b.task, b.scope, b.deps)
    requires MergedActivation(tasks, g, b.task, b.deps, b.activation)
    ensures WellFormed(tasks, scopes, g[id := b]) && ScopesOk(tasks, scopes, g[id := b])
  {
    assert Closed(g);
    hide IsCandidate, MergedActivation, BindingOk, WellFormed, ScopesOk;
    CandidateIsOk(tasks, scopes, g, results, b);
    AddBinding(tasks, scopes, g, id, b);
    ScopesOkExtends(tasks, scopes, g, g[id := b]);
  }

  lemma GraphOfAdded(instances: map<InstanceId, Instance>, id: InstanceId, b: Binding)
    ensures GraphOf(instances[id := NewInstance(b)]) == GraphOf(instances)[id := b]
  {
  }

  // A pending instance is added to the others.
  lemma AddInstanceEvolves(st: State, st': State, id: InstanceId, b: Binding)
    requires id !in st.instances && st' == SetInstance(st, id, NewInstance(b), [InstanceCreated(id)])
    ensures Evolves(st, st') && forall x :: SameAside(st, st', x)
  {
    forall x {
      StartedAppend(st.log, [InstanceCreated(id)], x);
    }
  }

  lemma NewInstanceOk(st: State, st': State, id: InstanceId, b: Binding)
    requires StoreOk(st) && id !in st.instances && b.task in st.tasks
    requires st' == SetInstance(st, id, NewInstance(b), [InstanceCreated(id)]) && forall x :: SameAside(st, st', x)
    ensures InstanceOk(st', id) && StoreOk(st')
  {
    assert SameAside(st, st', id);
    assert forall x :: SameAside(st, st', x) ==> Started(st'.log, x) == Started(st.log, x);
  }

  lemma AddInstanceStatusKeeps(st: State, st': State, id: InstanceId, b: Binding)
    requires InstancesOk(st) && StoreOk(st) && id !in st.instances && b.task in st.tasks
    requires st' == SetInstance(st, id, NewInstance(b), [InstanceCreated(id)])
    ensures InstancesOk(st') && StoreOk(st') && Evolves(st, st')
  {
    AddInstanceEvolves(st, st', id, b);
    hide Evolves, InstanceOk;
    NewInstanceOk(st, st', id, b);
    forall x | x in st.instances
      ensures InstanceOk(st', x)
    {
      AsideInstanceOk(st, st', x);
    }
  }

  // An instance that a step leaves alone stays acceptable.
  lemma AsideInstanceOk(st: State, st': State, x: InstanceId)
    requires Evolves(st, st') && x in st.instances && InstanceOk(st, x) && st'.instances[x] == st.instances[x]
    requires SameAside(st, st', x)
    ensures InstanceOk(st', x)
  {
    var inst := st.instances[x];
    if inst.status != Pending && inst.status != Skipped {
      SatisfiedSurvives(st, st', st.tasks[inst.binding.task], inst.binding.deps);
    }
    if inst.status == Done {
      DoneOkSurvives(st, st', x);
    }
  }

  lemma NewOwnerOk(st: State, st': State, id: InstanceId, b: Binding)
    requires RoutesOk(st.tasks) && InstancesOk(st) && Enabled(st, AddInstance(id, b)) && Evolves(st, st')
    requires st'.instances == st.instances[id := NewInstance(b)]
    ensures OwnerOk(st', id)
  {
    var g := GraphOf(st.instances);
    var owner := ControlOwner(st.tasks, b.task);
    if owner.Some? {
      OwnerIsDependency(st.tasks, b.task);
      var x := b.deps[owner.value];
      assert MayFill(st.tasks, st.scopes, g, st.results, b.task, b.scope, owner.value, x);
      assert InstanceOk(st, x);
      ControlSurvives(st, st', x);
    }
  }

  lemma AddInstanceKeeps(st: State, id: InstanceId, b: Binding)
    requires Inv(st) && Enabled(st, AddInstance(id, b))
    ensures Inv(Next(st, AddInstance(id, b))) && Evolves(st, Next(st, AddInstance(id, b)))
  {
    var st' := Next(st, AddInstance(id, b));
    hide StoreOk, InstancesOk, ControlOk, Evolves, WellFormed, ScopesOk, ValidTasks, MergedActivation, OwnerOk,
      ScopeFed;
    GraphOfAdded(st.instances, id, b);
    GraphWithCandidate(st.tasks, st.scopes, GraphOf(st.instances), st.results, id, b);
    AddInstanceStatusKeeps(st, st', id, b);
    AddInstanceControlKeeps(st, st', id, b);
  }

  lemma AddInstanceControlKeeps(st: State, st': State, id: InstanceId, b: Binding)
    requires Inv(st) && Enabled(st, AddInstance(id, b)) && Evolves(st, st')
    requires st'.instances == st.instances[id := NewInstance(b)] && st'.scopes == st.scopes
    ensures ControlOk(st')
  {
    hide WellFormed, ScopesOk, StoreOk, Evolves, OwnerOk, ScopeFed;
    ControlOkSurvives(st, st');
    NewOwnerOk(st, st', id, b);
  }

  // ---------- new scopes ----------

  lemma ScopesOkAdd(tasks: Tasks, scopes: map<ScopeId, InputScope>, g: Graph, s: ScopeId, x: InstanceId,
                    scope: InputScope)
    requires ScopesOk(tasks, scopes, g) && s !in scopes && forall s' :: s' in scopes ==> s' < s
    requires x in g && g[x].task in tasks && g[x].scope in scopes && !OwnsScope(scopes, x)
    requires scope.creator == Some(x) && scope.parent == Some(g[x].scope)
    requires scope.seeds == ContinueTargets(tasks[g[x].task])
    ensures ScopesOk(tasks, scopes[s := scope], g)
  {
    var scopes' := scopes[s := scope];
    forall s' | s' in scopes' && s' != BASE
      ensures ScopeOk(tasks, scopes', g, s')
    {
      if s' != s {
        assert ScopeOk(tasks, scopes, g, s');
      }
    }
    forall a, b | SameCreator(scopes', a, b)
      ensures a == b
    {
      if a != s && b != s {
        assert SameCreator(scopes, a, b);
      }
    }
  }

  lemma NewScopeGraphKeeps(st: State, st': State, s: ScopeId, x: InstanceId)
    requires GraphOk(st) && Enabled(st, NewScope(s, x))
    requires st'.tasks == st.tasks && st'.instances == st.instances && st'.scopes == st.scopes[s := ChildScope(st, x)]
    ensures GraphOk(st')
  {
    var g := GraphOf(st.instances);
    hide WellFormed, ScopesOk, ValidTasks, OwnsScope;
    AddScope(st.tasks, st.scopes, g, s, ChildScope(st, x));
    ScopesOkAdd(st.tasks, st.scopes, g, s, x, ChildScope(st, x));
  }

  // A scope is added beside the others.
  lemma NewScopeEvolves(st: State, st': State, s: ScopeId, scope: InputScope)
    requires s !in st.scopes && st' == st.(scopes := st.scopes[s := scope], log := st.log + [ScopeCreated(s)])
    ensures Evolves(st, st') && forall x :: SameAside(st, st', x)
  {
    forall x {
      StartedAppend(st.log, [ScopeCreated(s)], x);
    }
  }

  lemma NewScopeStatusKeeps(st: State, st': State, s: ScopeId, scope: InputScope)
    requires InstancesOk(st) && StoreOk(st) && s !in st.scopes
    requires st' == st.(scopes := st.scopes[s := scope], log := st.log + [ScopeCreated(s)])
    ensures InstancesOk(st') && StoreOk(st') && Evolves(st, st')
  {
    hide Evolves, InstanceOk;
    NewScopeEvolves(st, st', s, scope);
    forall i | i in st'.instances
      ensures InstanceOk(st', i)
    {
      AsideInstanceOk(st, st', i);
    }
    assert forall x :: SameAside(st, st', x) ==> Started(st'.log, x) == Started(st.log, x);
  }

  lemma NewScopeKeeps(st: State, s: ScopeId, x: InstanceId)
    requires Inv(st) && Enabled(st, NewScope(s, x))
    ensures Inv(Next(st, NewScope(s, x))) && Evolves(st, Next(st, NewScope(s, x)))
  {
    hide GraphOk, InstancesOk, StoreOk, Evolves, Continues, NextInputs, OwnsScope;
    var st' := Next(st, NewScope(s, x));
    NewScopeGraphKeeps(st, st', s, x);
    NewScopeStatusKeeps(st, st', s, ChildScope(st, x));
    ControlOkSurvives(st, st');
    assert ScopeFed(st', s);
  }

  // ---------- all steps ----------

  lemma StepKeeps(st: State, a: Action)
    requires Inv(st) && Enabled(st, a)
    ensures Inv(Next(st, a)) && Evolves(st, Next(st, a))
  {
    hide Inv, Evolves;
    match a
    case NewScope(s, x) => NewScopeKeeps(st, s, x);
    case AddInstance(id, b) => AddInstanceKeeps(st, id, b);
    case Refresh(i) => RefreshKeeps(st, i);
    case Begin(i) => BeginKeeps(st, i);
    case Finish(i, r, dir) => FinishKeeps(st, i, r, dir);
    case Recover(i, r, dir) => RecoverKeeps(st, i, r, dir);
    case GiveUp(i, p, reason) => ByHandKeeps(st, a, i);
    case Abort(i) => ByHandKeeps(st, a, i);
    case Requeue(i) => ByHandKeeps(st, a, i);
    case Ask(_, _) => InboxStepKeeps(st, a);
    case Answer(_, _) => InboxStepKeeps(st, a);
    case Apply(_) => InboxStepKeeps(st, a);
    case Crash => InboxStepKeeps(st, a);
  }

  lemma ByHandKeeps(st: State, a: Action, i: InstanceId)
    requires Inv(st) && Enabled(st, a)
    requires (a.GiveUp? && a.id == i) || (a.Abort? && a.id == i) || (a.Requeue? && a.id == i)
    ensures Inv(Next(st, a)) && Evolves(st, Next(st, a))
  {
    hide GraphOk, ControlOk, StoreOk, Evolves;
    assert InstanceOk(st, i);
    match a
    case GiveUp(_, p, reason) =>
      StatusKeeps(st, i, MarkFailed(st.instances[i], p, reason, None, None, false), [BecameFailed(i)]);
    case Abort(_) => StatusKeeps(st, i, Aborted(st.instances[i]), []);
    case Requeue(_) => StatusKeeps(st, i, Retried(st.instances[i]), [Requeued(i)]);
  }

  lemma {:induction false} RunKeeps(st: State, actions: seq<Action>, st': State)
    requires Inv(st) && IsRun(st, actions, st')
    ensures Inv(st') && Evolves(st, st')
    decreases |actions|
  {
    hide Inv, Evolves, Enabled, Next;
    if actions == [] {
      EvolvesReflexive(st);
    } else {
      StepKeeps(st, actions[0]);
      RunKeeps(Next(st, actions[0]), actions[1..], st');
      EvolvesTransitive(st, Next(st, actions[0]), st');
    }
  }

  lemma EvolvesReflexive(st: State)
    ensures Evolves(st, st)
  {
  }

  lemma InitialOk(tasks: Tasks, userInputs: map<string, Json>)
    requires ValidTasks(tasks)
    ensures Inv(Initial(tasks, userInputs))
  {
    hide ValidTasks;
    var st := Initial(tasks, userInputs);
    forall i
      ensures Started(st.log, i) == []
    {
      StartedAppend([], st.log, i);
      assert [] + st.log == st.log;
    }
  }
}
