// The scheduler of one run, working in place on the run and its store.
module RunService {
  import opened Domain
  import opened Closure
  import opened TaskGraph
  import opened InstanceGraph
  import opened Iterations
  import opened ControlEnvelope
  import opened BindingTrees
  import opened RunState
  import opened Invariants
  import opened Preservation
  import opened RunTheorems
  import opened RunProgress
  import opened Bindings
  import opened CandidateSearch
  import opened TaskPool
  import opened ProjectStore
  import opened RunSteps
  import opened StepOutcomes
  import opened Episodes
  import opened TaskOrder
  import opened ClosedRuns
  import opened SeedOrder
  import opened SyncVisits
  import opened EarlyVisits
  import opened Rehearsal
  import opened RehearsedSync

  class Run {
    const tasks: Tasks
    const userInputs: map<string, Json>
    const maxConcurrency: nat
    const store: Store
    var scopes: map<ScopeId, InputScope>
    var instances: map<InstanceId, Instance>
    var live: map<InstanceId, Request>
    var status: RunStatus
    var nextScope: ScopeId
    var nextInstance: InstanceId
    ghost var history: seq<Action>

    ghost function Current(): State
      reads this, store
    {
      State(tasks, userInputs, scopes, instances, store.results, store.interrupts, store.replies, store.log, live)
    }

    ghost predicate Valid()
      reads this, store
    {
      RunOk(Initial(tasks, userInputs), history, Current()) && store.Valid() && maxConcurrency >= 1 &&
      (forall s :: s in scopes ==> s < nextScope) && (forall i :: i in instances ==> i < nextInstance)
    }

    // A run with its base scope and no instance.
    constructor (tasks: Tasks, userInputs: map<string, Json>, maxConcurrency: nat)
      requires ValidTasks(tasks) && maxConcurrency >= 1
      ensures Valid() && fresh(store) && history == []
      ensures this.tasks == tasks && this.userInputs == userInputs && this.maxConcurrency == maxConcurrency
      ensures Current() == Initial(tasks, userInputs)
      ensures instances == map[] && live == map[] && scopes == map[BASE := InputScope(None, [], map[], None)]
    {
      this.tasks := tasks;
      this.userInputs := userInputs;
      this.maxConcurrency := maxConcurrency;
      store := new Store();
      scopes := map[BASE := BASE_SCOPE];
      instances := map[];
      live := map[];
      status := RunPending;
      nextScope := BASE + 1;
      nextInstance := 0;
      history := [];
      new;
      store.AppendEvent(RunCreated);
      store.AppendEvent(ScopeCreated(BASE));
      hide RunOk, ValidTasks;
      FreshRunOk(tasks, userInputs);
      assert Current() == Initial(tasks, userInputs);
    }

    // ---------- creating scopes and instances ----------

    method CreateScope(x: InstanceId)
      requires Valid() && MayOpenScope(Current(), x)
      modifies this, store
      ensures Valid() && history == old(history) + [NewScope(old(nextScope), x)]
      ensures Stepped(old(Current()), NewScope(old(nextScope), x), Current())
      ensures scopes == old(scopes)[old(nextScope) := scopes[old(nextScope)]]
      ensures IsNextScope(Current(), old(nextScope), x)
    {
      hide RunOk, OwnsScope, IsNextScope;
      ghost var before, s := Current(), nextScope;
      OpenScope(Initial(tasks, userInputs), history, before, s, x);
      history := history + [NewScope(s, x)];
      var b := instances[x].binding;
      var control := ControlOf(tasks, b.task, store.results, x).value;
      var parent := scopes[b.scope];
      var scope := InputScope(Some(b.scope), ContinueTargets(tasks[b.task]), parent.values + AsMap(control.nextInputs),
        Some(x));
      scopes := scopes[nextScope := scope];
      store.AppendEvent(ScopeCreated(nextScope));
      nextScope := nextScope + 1;
      assert ScopeOpened(before, Current(), s, x);
      RunReachable(Initial(tasks, userInputs), history, Current());
      CreatedIsNext(Current(), s, x);
    }

    method CreateInstance(t: TaskId, s: ScopeId, deps: map<TaskId, InstanceId>, activation: map<TaskId, InstanceId>)
      requires Valid() && Closed(GraphOf(instances))
      requires IsBinding(tasks, scopes, GraphOf(instances), store.results, t, s, deps, activation)
      requires Key(t, deps, s) !in KeysOfInstances(instances) && AddsClean(Current(), Binding(t, s, deps, activation))
      modifies this, store
      ensures Valid() && history == old(history) + [AddInstance(old(nextInstance), Binding(t, s, deps, activation))]
      ensures Stepped(old(Current()), AddInstance(old(nextInstance), Binding(t, s, deps, activation)), Current())
    {
      hide RunOk, Evolves, IsCandidate, MergedActivation, Closed, AddsClean;
      ghost var before := Current();
      var b := Binding(t, s, deps, activation);
      ghost var a := AddInstance(nextInstance, b);
      NewKey(instances, b, nextInstance);
      assert Enabled(before, a) by {
        MayAdd(before, nextInstance, b);
      }
      instances := instances[nextInstance := NewInstance(b)];
      store.AppendEvent(InstanceCreated(nextInstance));
      nextInstance := nextInstance + 1;
      history := history + [a];
      assert Stepped(before, a, Current());
      StepTo(Initial(tasks, userInputs), old(history), before, a, Current());
    }

    // ---------- sync ----------

    // The scope that x asks for, if x is a done controller that continues and has none yet.
    method OpenScopeFor(x: InstanceId, existing: set<InstanceId>) returns (made: bool)
      requires Valid() && x in instances && (x in existing <==> OwnsScope(scopes, x))
      modifies this, store
      ensures Valid() && (made <==> MayOpenScope(old(Current()), x))
      ensures made ==> Stepped(old(Current()), NewScope(old(nextScope), x), Current())
      ensures made ==> history == old(history) + [NewScope(old(nextScope), x)]
      ensures !made ==> Current() == old(Current()) && history == old(history)
    {
      hide RunOk, Stepped, OwnsScope;
      made := false;
      if instances[x].status == Done && x !in existing {
        var t := instances[x].binding.task;
        if t in tasks && tasks[t].control.Some? && tasks[t].control.value.LoopMode? {
          var control := ControlOf(tasks, t, store.results, x);
          if control.Some? && control.value.kind == LoopKind && control.value.action == Some(Continue) {
            CreateScope(x);
            made := true;
          }
        }
      }
    }

    // One scope for each controller instance that is done, asks to continue and has none.
    method SyncInputScopes() returns (created: bool)
      requires Valid()
      modifies this, store
      ensures Valid() && GrowsScopes(old(Current()), Current()) && old(history) <= history
      ensures Continued(old(history), history, IsCreation)
      ensures forall x :: !MayOpenScope(Current(), x)
      ensures !created ==> Current() == old(Current()) && history == old(history)
      ensures created ==> exists x :: MayOpenScope(old(Current()), x)
    {
      hide RunOk, MayOpenScope, Stepped, OwnsScope, Continued, ScopesSoFar;
      created := false;
      ghost var start := Current();
      var existing := set s | s in scopes && scopes[s].creator.Some? :: scopes[s].creator.value;
      var todo := instances.Keys;
      ScopesUnchanged(start, existing);
      ContinuedNone(history, IsCreation);
      while todo != {}
        invariant Valid() && ScopesSoFar(start, Current(), todo, existing, created)
        invariant old(history) <= history && Continued(old(history), history, IsCreation)
        invariant todo <= instances.Keys && (!created ==> history == old(history))
      {
        var x :| x in todo;
        CreatorKnown(start, Current(), todo, existing, created, x);
        ghost var before, soFar, s, left := Current(), history, nextScope, todo;
        todo := todo - {x};
        var made := OpenScopeFor(x, existing);
        ScopesNext(start, before, Current(), left, existing, created, x, s, made);
        if made {
          ContinuedOne(old(history), soFar, NewScope(s, x), IsCreation);
          existing := existing + {x};
          created := true;
        }
      }
      ScopesDone(start, Current(), existing, created);
    }

    // The instance for one valid binding, unless its key is taken.
    method EnsureInstance(t: TaskId, s: ScopeId, deps: map<TaskId, InstanceId>, activation: map<TaskId, InstanceId>,
                          existing: set<Key>, cache: Cache)
      returns (created: bool, existing': set<Key>, cache': Cache)
      requires Valid() && existing == KeysOfInstances(instances) && Closed(GraphOf(instances))
      requires CacheOk(GraphOf(instances), cache)
      requires IsBinding(tasks, scopes, GraphOf(instances), store.results, t, s, deps, activation)
      requires AddsClean(Current(), Binding(t, s, deps, activation))
      modifies this, store
      ensures Valid() && (created <==> Key(t, deps, s) !in existing)
      ensures created ==> Stepped(old(Current()), AddInstance(old(nextInstance), Binding(t, s, deps, activation)),
        Current())
      ensures created ==> history == old(history) + [AddInstance(old(nextInstance), Binding(t, s, deps, activation))]
      ensures created ==> Inv(old(Current()))
      ensures !created ==> Current() == old(Current()) && history == old(history)
      ensures Closed(GraphOf(instances)) && CacheOk(GraphOf(instances), cache')
      ensures existing' == KeysOfInstances(instances) && existing' == existing + {Key(t, deps, s)}
    {
      hide RunOk, Stepped, Closed, IsBinding, CacheOk, KeysOfInstances, Inv, AddsClean;
      created, existing', cache' := Key(t, deps, s) !in existing, existing, cache;
      if created {
        ghost var before, id := Current(), nextInstance;
        RunInv(Initial(tasks, userInputs), history, before);
        CreateInstance(t, s, deps, activation);
        GrowsReflexive(before);
        AddedGrows(before, before, id, Binding(t, s, deps, activation), Current());
        RunInv(Initial(tasks, userInputs), history, Current());
        ClosedRun(Current());
        existing' := existing' + {Key(t, deps, s)};
        cache' := map[];
        EmptyCache(GraphOf(instances));
      }
    }

    // The instances task t still lacks in scope s.
    method SyncTask(t: TaskId, s: ScopeId, existing: set<Key>, cache: Cache)
      returns (created: bool, existing': set<Key>, cache': Cache)
      requires Valid() && t in tasks && s in scopes && existing == KeysOfInstances(instances)
      requires Closed(GraphOf(instances)) && CacheOk(GraphOf(instances), cache)
      requires SeedsOrdered(tasks) ==> AllCaught(Current(), s, DepTasks(tasks[t]))
      modifies this, store
      ensures Valid() && Visited(old(Current()), Current(), {t}, {s}, created)
      ensures Continued(old(history), history, IsCreation)
      ensures NewFrom(old(Current()), Current(), t, s) && Filled(old(Current()), Current(), t, s)
      ensures s != BASE && AllGood(old(Current()), s) ==> (AllGood(Current(), s) <==> !BindsEarly(old(Current()), t, s))
      ensures existing' == KeysOfInstances(instances)
      ensures Closed(GraphOf(instances)) && CacheOk(GraphOf(instances), cache')
      ensures !created ==> history == old(history)
    {
      hide RunOk, Stepped, Closed, IsBinding, IsCandidate, GrowsInstances, TaskSynced, CacheOk, Searchable,
        KeysOfInstances, FindsCandidates, Inv, AllCaught, AddsClean, NewOnlyAt, Filled, SeedsOrdered, NewFrom, AllGood,
        BindsEarly;
      ghost var start := Current();
      RunInv(Initial(tasks, userInputs), history, start);
      SearchableRun(start);
      var bindings;
      bindings, cache' := CandidateInstanceBindings(tasks, scopes, instances, store.results, t, s, cache);
      BindingsFound(start, t, s, bindings);
      created, existing' := false, existing;
      GrowsReflexive(start);
      NothingFrom(start, t, s);
      for k := 0 to |bindings|
        invariant Valid() && GrowsInstances(start, Current()) && Continued(old(history), history, IsCreation)
        invariant existing' == KeysOfInstances(instances) && Closed(GraphOf(instances))
        invariant CacheOk(GraphOf(instances), cache')
        invariant AllBindings(Current(), t, s, bindings[k..]) && NewFrom(start, Current(), t, s)
        invariant created <==> instances != start.instances
        invariant !created ==> Current() == start && history == old(history)
        invariant forall j :: 0 <= j < k ==> Key(t, bindings[j].0, s) in existing'
        invariant TaskSynced(start, t, s) ==> !created
      {
        var (deps, activation) := bindings[k];
        ghost var before, id := Current(), nextInstance;
        assert bindings[k..][0] == bindings[k] && bindings[k..][1..] == bindings[k + 1..];
        if TaskSynced(start, t, s) {
          SyncedFound(start, t, s, deps, activation);
        }
        BindingAddsClean(start, before, t, s, bindings, k);
        var made;
        made, existing', cache' := EnsureInstance(t, s, deps, activation, existing', cache');
        if made {
          AddedGrows(start, before, id, Binding(t, s, deps, activation), Current());
          FoundNew(start, before, t, s, bindings, k, id, Current());
          AllBindingsSurvive(before, id, Binding(t, s, deps, activation), Current(), t, s, bindings[k..]);
          created := true;
        }
      }
      FoundFilled(start, Current(), t, s, bindings);
      if !created {
        FoundAllSynced(start, t, s, bindings);
      }
      VisitedOne(start, Current(), t, s, created);
      if s != BASE && AllGood(start, s) {
        RunInv(Initial(tasks, userInputs), history, Current());
        VisitIff(start, Current(), t, s);
      }
    }

    // Every task in one scope, in the order of the task ids.
    method SyncScope(s: ScopeId, existing: set<Key>, cache: Cache)
      returns (created: bool, existing': set<Key>, cache': Cache)
      requires Valid() && s in scopes && existing == KeysOfInstances(instances)
      requires Closed(GraphOf(instances)) && CacheOk(GraphOf(instances), cache)
      modifies this, store
      ensures Valid() && Visited(old(Current()), Current(), tasks.Keys, {s}, created)
      ensures Continued(old(history), history, IsCreation)
      ensures ScopeSoFar(old(Current()), Current(), s, tasks.Keys)
      ensures forall order {:trigger ScopeCarried(old(Current()), Current(), s, order)} ::
        IsOrder(tasks, order) ==> ScopeCarried(old(Current()), Current(), s, order)
      ensures existing' == KeysOfInstances(instances)
      ensures Closed(GraphOf(instances)) && CacheOk(GraphOf(instances), cache')
      ensures !created ==> history == old(history)
    {
      hide RunOk, Closed, CacheOk, KeysOfInstances, Visited, ScopeSoFar, Continued, AllCaught, NewOnlyAt, Filled, Inv,
        Ordered, SeedsOrdered, Sorted, ScopeCarried, NewFrom, AllGood, BindsEarly;
      ghost var start := Current();
      created, existing', cache' := false, existing, cache;
      var order := SortedIds(tasks.Keys);
      NothingVisited(start, {}, {s});
      ScopeStarts(start, s);
      ScopeCarriedStarts(start, s);
      ContinuedNone(history, IsCreation);
      assert Elements(order[..0]) == {} && order[..0] == [];
      for k := 0 to |order|
        invariant Valid() && s in scopes && old(history) <= history && Continued(old(history), history, IsCreation)
        invariant existing' == KeysOfInstances(instances) && Closed(GraphOf(instances))
        invariant CacheOk(GraphOf(instances), cache')
        invariant Visited(start, Current(), Elements(order[..k]), {s}, created)
        invariant ScopeSoFar(start, Current(), s, Elements(order[..k])) && ScopeCarried(start, Current(), s, order[..k])
        invariant !created ==> history == old(history)
      {
        var t := order[k];
        ghost var before, soFar := Current(), history;
        RunInv(Initial(tasks, userInputs), history, before);
        RunOrdered(Initial(tasks, userInputs), history, before);
        TurnReady(start, before, s, order, k);
        var made;
        made, existing', cache' := SyncTask(t, s, existing', cache');
        RunInv(Initial(tasks, userInputs), history, Current());
        TurnTaken(start, before, Current(), s, order, k, created, made);
        ContinuedJoin(old(history), soFar, history, IsCreation, IsCreation);
        created := created || made;
      }
      assert order[..|order|] == order;
      OneOrder(start, Current(), s, order);
    }

    // Every task in every scope.
    method SyncPass(cache: Cache) returns (created: bool, cache': Cache)
      requires Valid() && Closed(GraphOf(instances)) && CacheOk(GraphOf(instances), cache)
      modifies this, store
      ensures Valid() && Visited(old(Current()), Current(), tasks.Keys, scopes.Keys, created) && scopes == old(scopes)
      ensures PassCarried(old(Current()), Current(), scopes.Keys)
      ensures old(history) <= history && Continued(old(history), history, IsCreation)
      ensures Closed(GraphOf(instances)) && CacheOk(GraphOf(instances), cache')
      ensures !created ==> history == old(history)
    {
      hide RunOk, Closed, CacheOk, KeysOfInstances, Visited, ScopeSoFar, Continued, ScopeCarried, PassCarried,
        IsOrder, Inv;
      ghost var start := Current();
      var existing := KeysOfInstances(instances);
      created, cache' := false, cache;
      var todo := scopes.Keys;
      NothingVisited(start, tasks.Keys, {});
      PassCarriedStarts(start);
      ContinuedNone(history, IsCreation);
      assert scopes.Keys - todo == {};
      while todo != {}
        invariant Valid() && todo <= scopes.Keys && scopes == start.scopes
        invariant old(history) <= history && Continued(old(history), history, IsCreation)
        invariant existing == KeysOfInstances(instances) && Closed(GraphOf(instances))
        invariant CacheOk(GraphOf(instances), cache')
        invariant Visited(start, Current(), tasks.Keys, scopes.Keys - todo, created)
        invariant PassCarried(start, Current(), scopes.Keys - todo)
        invariant !created ==> history == old(history)
      {
        var s :| s in todo;
        ghost var before, soFar, done := Current(), history, scopes.Keys - todo;
        var made;
        RunInv(Initial(tasks, userInputs), history, before);
        made, existing, cache' := SyncScope(s, existing, cache');
        RunInv(Initial(tasks, userInputs), history, Current());
        PassTurn(start, before, Current(), done, s, created, made);
        ContinuedJoin(old(history), soFar, history, IsCreation, IsCreation);
        todo := todo - {s};
        assert scopes.Keys - todo == done + {s};
        created := created || made;
      }
      assert scopes.Keys - todo == scopes.Keys;
    }

    // Passes until one creates nothing. It stops because only so many bindings exist, and then
    // every valid binding has its instance; on a run already closed it changes nothing.
    method SyncInstances()
      requires Valid()
      modifies this, store
      ensures Valid() && SyncClosed(Current()) && old(history) <= history
      ensures Continued(old(history), history, IsCreation)
      ensures GrowsBoth(old(Current()), Current())
      ensures SyncClosed(old(Current())) ==> Current() == old(Current()) && history == old(history)
      ensures forall x :: WillRehearse(old(Current()), x) ==> Decided(Current(), x)
    {
      hide RunOk, Closed, CacheOk, Visited, MayOpenScope, AllSynced, Inv, Continued, GrowsBoth, GrowsScopes, SyncClosed,
        Outstanding, Room, Ranks, DepsExist, PassCarried, WillRehearse, StandsAfter, Decided,
        Sorted, Reachable;
      ghost var start := Current();
      RunInv(Initial(tasks, userInputs), history, start);
      ghost var rank := RankOf(start);
      ClosedRun(start);
      var cache: Cache := map[];
      EmptyCache(GraphOf(instances));
      BothReflexive(start);
      ContinuedNone(history, IsCreation);
      ghost var order := OrderExists(tasks.Keys);
      ghost var passes := 0;
      var created := true;
      while created
        invariant Valid() && Inv(Current()) && Closed(GraphOf(instances)) && CacheOk(GraphOf(instances), cache)
        invariant GrowsBoth(start, Current()) && Continued(old(history), history, IsCreation) && old(history) <= history
        invariant SyncClosed(start) ==> Current() == start && history == old(history)
        invariant !created ==> SyncClosed(Current())
        invariant passes == 0 ==> Current() == start && created
        invariant passes > 0 ==> forall x :: WillRehearse(start, x) ==> StandsAfter(start, Current(), x, order, passes)
        decreases created, |Outstanding(Current())|, Room(Current(), rank)
      {
        ghost var before, soFar := Current(), history;
        var scopesMade := SyncInputScopes();
        ghost var mid, midway := Current(), history;
        RunInv(Initial(tasks, userInputs), history, mid);
        SameInstances(before, mid);
        var instancesMade;
        instancesMade, cache := SyncPass(cache);
        RunInv(Initial(tasks, userInputs), history, Current());
        BothGrow(start, before, mid, Current(), instancesMade);
        SyncMeasure(before, mid, Current(), rank, scopesMade, instancesMade);
        SyncSettled(before, mid, Current(), scopesMade, instancesMade);
        PassRehearsed(start, before, mid, Current(), order, passes, instancesMade);
        passes := passes + 1;
        ContinuedJoin(soFar, midway, history, IsCreation, IsCreation);
        ContinuedJoin(old(history), soFar, history, IsCreation, IsCreation);
        created := scopesMade || instancesMade;
      }
      RunReachable(Initial(tasks, userInputs), history, Current());
      AllDecided(start, Current(), order, passes);
    }

    // ---------- refresh ----------

    method RefreshInstanceInterrupts(i: InstanceId) returns (blocking: set<InterruptId>)
      ensures blocking == OpenBlocking(store.interrupts, i)
      ensures forall n :: n in blocking <==> n in store.interrupts && IsOpenFor(store.interrupts[n], i)
    {
      var found := store.ListInstanceInterrupts(i, true);
      blocking := {};
      for k := 0 to |found|
        invariant blocking == set n | n in found[..k] && store.interrupts[n].status == Open
      {
        if store.interrupts[found[k]].status == Open {
          blocking := blocking + {found[k]};
        }
      }
      assert found[..|found|] == found;
    }

    method AnyDependencyFailed(i: InstanceId) returns (failed: bool)
      requires i in instances && instances[i].binding.task in tasks
      requires DepTasks(tasks[instances[i].binding.task]) <= instances[i].binding.deps.Keys
      requires forall d :: d in instances[i].binding.deps ==> instances[i].binding.deps[d] in instances
      ensures failed <==> DependencyFailed(tasks[instances[i].binding.task], instances, instances[i].binding.deps)
    {
      var dependsOn := tasks[instances[i].binding.task].dependsOn;
      for k := 0 to |dependsOn|
        invariant forall j :: 0 <= j < k ==> !DepFailed(instances, instances[i].binding.deps, dependsOn[j])
      {
        assert dependsOn[k].task in DepTasks(tasks[instances[i].binding.task]);
        var upstream := instances[instances[i].binding.deps[dependsOn[k].task]];
        if upstream.status == Failed || upstream.status == Skipped {
          return true;
        }
      }
      failed := false;
    }

    method AllDependenciesSatisfied(i: InstanceId) returns (ok: bool)
      requires i in instances && instances[i].binding.task in tasks
      ensures ok <==> DependenciesSatisfied(tasks[instances[i].binding.task], instances, instances[i].binding.deps)
    {
      var dependsOn := tasks[instances[i].binding.task].dependsOn;
      var deps := instances[i].binding.deps;
      for k := 0 to |dependsOn|
        invariant forall j :: 0 <= j < k ==> DepSatisfied(instances, deps, dependsOn[j])
      {
        var dep := dependsOn[k];
        if dep.task !in deps || deps[dep.task] !in instances {
          return false;
        }
        var upstream := instances[deps[dep.task]];
        if upstream.status != Done {
          return false;
        }
        if dep.kind == Context {
          for j := 0 to |dep.consume|
            invariant forall m :: 0 <= m < j ==> dep.consume[m] in upstream.published
          {
            if dep.consume[j] !in upstream.published {
              return false;
            }
          }
        }
      }
      ok := true;
    }

    // Stores one instance with its events, as the step says.
    method Commit(i: InstanceId, inst: Instance, events: seq<Event>, ghost step: Action)
      requires Valid() && i in instances && !step.AddInstance?
      requires Stepped(Current(), step, SetInstance(Current(), i, inst, events))
      modifies this, store
      ensures Valid() && Current() == SetInstance(old(Current()), i, inst, events) && history == old(history) + [step]
    {
      hide RunOk, Evolves, Stepped;
      ghost var before := Current();
      instances := instances[i := inst];
      store.AppendEvents(events);
      history := history + [step];
      StepTo(Initial(tasks, userInputs), old(history), before, step, Current());
    }

    // What a visit makes of instance i, and the event to report.
    method RefreshedInstance(i: InstanceId) returns (inst: Instance, events: seq<Event>)
      requires i in instances && instances[i].binding.task in tasks
      requires DepTasks(tasks[instances[i].binding.task]) <= instances[i].binding.deps.Keys
      requires forall d :: d in instances[i].binding.deps ==> instances[i].binding.deps[d] in instances
      ensures inst == Refreshed(tasks[instances[i].binding.task], instances, store.interrupts, i)
      ensures events == RefreshEvents(instances[i], inst, i)
    {
      hide DependenciesSatisfied, DependencyFailed, OpenBlocking;
      var blocking := RefreshInstanceInterrupts(i);
      inst, events := instances[i].(blocking := blocking), [];
      if inst.status == Waiting {
        if blocking != {} {
          inst := inst.(waitingForReplies := true);
          return;
        }
        inst := inst.(status := Runnable, waitingForReplies := false, error := None, failureKind := None,
                      failureSummary := None, resumeRecommended := false);
        events := [Resumed(i)];
        return;
      }
      if inst.status == Skipped && inst.error == Some(UpstreamFailed) {
        var failed := AnyDependencyFailed(i);
        if failed {
          return;
        }
        inst := inst.(status := Pending, waitingForReplies := false, error := None);
      }
      if inst.status != Pending {
        return;
      }
      var failed := AnyDependencyFailed(i);
      if failed {
        inst := inst.(status := Skipped, waitingForReplies := false, error := Some(UpstreamFailed));
        return;
      }
      var satisfied := AllDependenciesSatisfied(i);
      if satisfied {
        inst := inst.(status := Runnable, waitingForReplies := false, failureKind := None, failureSummary := None,
                      resumeRecommended := false);
        events := [BecameRunnable(i)];
      }
    }

    method VisitInstance(i: InstanceId)
      requires Valid() && i in instances
      modifies this, store
      ensures Valid() && Stepped(old(Current()), Refresh(i), Current()) && history == old(history) + [Refresh(i)]
      ensures Known(old(Current()), i) && i in instances && IsVisited(old(Current()), i, instances[i])
    {
      hide RunOk, Inv, Refreshed, RefreshEvents, IsVisited;
      ghost var before := Current();
      RunInv(Initial(tasks, userInputs), history, before);
      DependenciesElsewhere(before, i);
      RefreshedAs(before, i);
      var inst, events := RefreshedInstance(i);
      Commit(i, inst, events, Refresh(i));
    }

    // One sweep over all instances, in any order.
    method RefreshRunnableInstances()
      requires Valid()
      modifies this, store
      ensures Valid() && Sweeping(old(Current()), Current()) && old(history) <= history
      ensures Continued(old(history), history, IsRefresh)
      ensures (forall i :: i in instances ==> SweptIn(Current(), i)) && NoneAwaitsFailed(Current())
    {
      hide RunOk, Inv, Stepped, SweptIn, Sweeping, NoneAwaitsFailed;
      ghost var start := Current();
      var todo := instances.Keys;
      NothingSwept(start);
      while todo != {}
        invariant Valid() && Sweeping(start, Current()) && old(history) <= history
        invariant Continued(old(history), history, IsRefresh)
        invariant todo <= instances.Keys
        invariant forall i :: i in instances && i !in todo ==> SweptIn(Current(), i)
      {
        var i :| i in todo;
        ghost var before := Current();
        RunInv(Initial(tasks, userInputs), history, before);
        VisitInstance(i);
        RefreshSweeps(before, i, Current());
        SweepTransitive(start, before, Current());
        todo := todo - {i};
      }
      SweptNoneAwaits(Current());
    }

    // ---------- the status of the run ----------

    method FinalizeRunState()
      modifies this`status
      ensures status == FinalStatus(Statuses(instances)) && Reports(status, instances)
    {
      hide Reports;
      StatusReports(instances);
      var statuses: set<Status> := {};
      var todo := instances.Keys;
      while todo != {}
        invariant todo <= instances.Keys && statuses == set i | i in instances && i !in todo :: instances[i].status
      {
        var i :| i in todo;
        todo := todo - {i};
        statuses := statuses + {instances[i].status};
      }
      if Running in statuses {
        status := RunRunning;
      } else if Failed in statuses {
        status := RunFailed;
      } else if Waiting in statuses {
        status := RunWaiting;
      } else if Runnable in statuses || Pending in statuses {
        status := RunPending;
      } else {
        status := RunDone;
      }
    }

    // ---------- interrupts ----------

    // A worker asks for help; unknown instances are refused.
    method CreateInterrupt(request: Interrupt) returns (n: Option<InterruptId>)
      requires Valid()
      modifies this, store
      ensures Valid() && (n.Some? <==> request.instance in instances)
      ensures n.Some? ==> Stepped(old(Current()), Ask(n.value, request.(status := Open)), Current())
      ensures n.Some? ==> history == old(history) + [Ask(n.value, request.(status := Open))]
      ensures n.None? ==> Current() == old(Current()) && history == old(history)
    {
      hide RunOk, Evolves;
      if request.instance !in instances {
        return None;
      }
      ghost var before := Current();
      var id := store.CreateInterrupt(request);
      ghost var a := Ask(id, request.(status := Open));
      history := history + [a];
      assert Stepped(before, a, Current());
      StepTo(Initial(tasks, userInputs), old(history), before, a, Current());
      n := Some(id);
    }

    // An actor replies; unknown interrupts are refused.
    method SaveReply(n: InterruptId, reply: Reply) returns (ok: bool)
      requires Valid()
      modifies this, store
      ensures Valid() && (ok <==> n in old(store.interrupts))
      ensures ok ==> Stepped(old(Current()), Answer(n, reply), Current())
      ensures ok ==> history == old(history) + [Answer(n, reply)]
      ensures !ok ==> Current() == old(Current()) && history == old(history)
    {
      hide RunOk, Evolves;
      ghost var before := Current();
      ok := store.SaveInterruptReply(n, reply);
      if ok {
        history := history + [Answer(n, reply)];
        assert Stepped(before, Answer(n, reply), Current());
        StepTo(Initial(tasks, userInputs), old(history), before, Answer(n, reply), Current());
      }
    }

    method MarkApplied(n: InterruptId)
      requires Valid() && n in store.interrupts && store.interrupts[n].status == Resolved
      modifies this, store
      ensures Valid() && Stepped(old(Current()), Apply(n), Current()) && history == old(history) + [Apply(n)]
      ensures store.interrupts ==
        old(store.interrupts)[n := old(store.interrupts)[n].(status := InterruptStatus.Applied)]
    {
      hide RunOk, Evolves;
      ghost var before := Current();
      store.MarkInterruptApplied(n);
      history := history + [Apply(n)];
      assert Stepped(before, Apply(n), Current());
      StepTo(Initial(tasks, userInputs), old(history), before, Apply(n), Current());
    }

    // The resumed session has seen the replies.
    method MarkResolvedInterruptsApplied(i: InstanceId)
      requires Valid()
      modifies this, store
      ensures Valid() && OnlyApplies(old(Current()), Current()) && Continued(old(history), history, IsApply)
      ensures store.interrupts == RepliesApplied(old(store.interrupts), i)
      ensures forall n :: n in store.interrupts ==>
        n in old(store.interrupts) &&
        if old(store.interrupts)[n].instance == i && old(store.interrupts)[n].status == Resolved
        then store.interrupts[n].status == InterruptStatus.Applied
        else store.interrupts[n] == old(store.interrupts)[n]
    {
      hide RunOk, Stepped, Continued, OnlyApplies, AppliedOf;
      ghost var start := Current();
      var found := store.ListInstanceInterrupts(i, false);
      ContinuedNone(history, IsApply);
      NothingApplied(start, found);
      for k := 0 to |found|
        invariant Valid() && old(history) <= history && Continued(old(history), history, IsApply)
        invariant OnlyApplies(start, Current()) && AppliedOf(start.interrupts, store.interrupts, found[..k])
      {
        AppliedPresent(start.interrupts, store.interrupts, found, k);
        ghost var before, soFar := Current(), history;
        if store.interrupts[found[k]].status == Resolved {
          MarkApplied(found[k]);
          ApplyOnly(start, before, found[k], Current());
          ContinuedOne(old(history), soFar, Apply(found[k]), IsApply);
        }
        AppliedNext(start.interrupts, before.interrupts, store.interrupts, found, k);
      }
      assert found[..|found|] == found;
      AppliedAll(start.interrupts, store.interrupts, found, i);
    }

    // ---------- attempts ----------

    // Starts an attempt if the instance is still runnable.
    method BeginAttempt(i: InstanceId) returns (begun: bool)
      requires Valid() && i in instances
      modifies this, store
      ensures Valid() && (begun <==> old(instances)[i].status == Runnable)
      ensures begun ==> Stepped(old(Current()), Begin(i), Current()) && history == old(history) + [Begin(i)]
      ensures begun ==> instances.Keys == old(instances).Keys && IsBegun(old(instances)[i], instances[i])
      ensures begun ==> live == old(live)[i := Request(old(instances)[i].attempt + 1, old(instances)[i].session)]
      ensures !begun ==> Current() == old(Current()) && history == old(history)
    {
      hide RunOk, Evolves, Stepped, IsBegun;
      ghost var before := Current();
      var inst := instances[i];
      BegunOutcome(inst);
      if inst.status != Runnable {
        return false;
      }
      var nextAttempt := inst.attempt + 1;
      inst := inst.(status := Running, waitingForReplies := false, error := None, failureKind := None,
                    failureSummary := None, resumeRecommended := false, attempt := nextAttempt, termination := None);
      assert inst == Begun(instances[i]);
      hide Begun;
      store.AppendEvent(AttemptStarted(i, nextAttempt));
      live := live[i := Request(nextAttempt, inst.session)];
      instances := instances[i := inst];
      history := history + [Begin(i)];
      BeginStepped(before, i, Current());
      StepTo(Initial(tasks, userInputs), old(history), before, Begin(i), Current());
      begun := true;
    }

    // Reads result.json of the attempt, checks the control of a controller and keeps the payload.
    method MaterializeInstanceResult(task: Task, i: InstanceId, dir: AttemptDir) returns (problem: Option<Problem>)
      modifies store`results, store`log
      ensures
        match Materialize(task, i, dir)
        case Refused(p) => problem == Some(p) && store.results == old(store.results) && store.log == old(store.log)
        case Nothing => problem == None && store.results == old(store.results) - {i} && store.log == old(store.log)
        case Keep(payload, events) =>
          problem == None && store.results == old(store.results)[i := payload] &&
          store.log == old(store.log) + events
    {
      if dir.result == NoResult {
        if task.control.Some? || task.hasResultSchema || RESULT_FILE in task.publish {
          return Some(ResultMissing);
        }
        store.DeleteInstanceResult(i);
        return None;
      }
      if dir.result == Malformed {
        return Some(ResultMalformed);
      }
      if dir.result == JsonNull {
        store.DeleteInstanceResult(i);
        return None;
      }
      var payload := dir.result.payload;
      if task.control.None? {
        store.SaveInstanceResult(i, payload);
        store.AppendEvent(ResultStored(i));
        return None;
      }
      var control := ControlFor(task, payload);
      if control.None? {
        return Some(ControlInvalid);
      }
      store.SaveInstanceResult(i, payload);
      store.AppendEvent(ResultStored(i));
      store.AppendEvent(ControlEmitted(i));
      match task.control.value
      case RouteMode(routes) =>
        ghost var events := ControlEvents(task, i, control.value);
        for k := 0 to |routes|
          invariant store.results == old(store.results)[i := payload]
          invariant store.log == old(store.log) + [ResultStored(i), ControlEmitted(i)] + events[..k]
        {
          store.AppendEvent(RouteDecided(i, routes[k].name, routes[k].name in control.value.labels));
        }
        assert events[..|routes|] == events;
        problem := None;
      case LoopMode(_, _) =>
        store.AppendEvent(LoopDecided(i, control.value.action == Some(Continue)));
        problem := None;
    }

    // Publishes the declared files, or names the first one that was not produced.
    method PromoteArtifacts(task: Task, dir: AttemptDir) returns (published: seq<Path>, lost: Option<Path>)
      ensures lost == FirstNotProduced(task.publish, dir.files)
      ensures lost.None? ==> published == task.publish
    {
      published := [];
      for k := 0 to |task.publish|
        invariant published == task.publish[..k]
        invariant FirstNotProduced(task.publish, dir.files) == FirstNotProduced(task.publish[k..], dir.files)
      {
        if task.publish[k] !in dir.files {
          return published, Some(task.publish[k]);
        }
        published := published + [task.publish[k]];
      }
      lost := None;
    }

    // The required decisions for which no blocking interrupt was ever created.
    method CheckDecisionObligations(task: Task, i: InstanceId) returns (missing: seq<RequiredDecision>)
      ensures missing == MissingDecisions(store.interrupts, i, task.requiredDecisions)
    {
      var found := store.ListInstanceInterrupts(i, false);
      var created: set<(DecisionKind, Audience)> := {};
      for k := 0 to |found|
        invariant forall d, a :: (d, a) in created <==>
          exists j :: 0 <= j < k && AsksFor(store.interrupts[found[j]], d, a)
      {
        var interrupt := store.interrupts[found[k]];
        if interrupt.decision.Some? && interrupt.blocking {
          created := created + {(interrupt.decision.value, interrupt.audience)};
        }
      }
      missing := [];
      var required := task.requiredDecisions;
      for k := 0 to |required|
        invariant missing + MissingDecisions(store.interrupts, i, required[k..]) ==
          MissingDecisions(store.interrupts, i, required)
      {
        var r := required[k];
        var matched := match r.audience
          case AnyAudience => (r.decision, Audience.Assistant) in created || (r.decision, Audience.Human) in created
          case Only(a) => (r.decision, a) in created;
        CreatedMatches(store.interrupts, i, found, created, r);
        if !matched {
          missing := missing + [r];
        }
      }
    }

    // The failed instance, with its event reported.
    method MarkInstanceFailed(i: InstanceId, inst: Instance, error: Problem, termination: Termination,
                              kind: Option<FailureKind>, summary: Option<Problem>,
                              resume: bool) returns (failed: Instance)
      modifies store`log
      ensures failed == MarkFailed(inst, error, termination, kind, summary, resume) && failed.status == Failed
      ensures store.log == old(store.log) + [BecameFailed(i)]
    {
      var shownKind := if kind.Some? then kind.value else UnknownFailure;
      var shownSummary := if summary.Some? && summary.value != Reported("") then summary.value else error;
      assert shownKind == KindOr(kind) && shownSummary == SummaryOr(summary, error);
      hide KindOr, SummaryOr;
      failed := inst.(status := Failed, waitingForReplies := false, error := Some(error),
                      termination := Some(termination), failureKind := Some(shownKind),
                      failureSummary := Some(shownSummary), resumeRecommended := resume);
      assert failed == MarkFailed(inst, error, termination, kind, summary, resume);
      hide MarkFailed;
      store.AppendEvent(BecameFailed(i));
    }

    // The instance of a failed attempt, and its stored result removed.
    method FailAttempt(i: InstanceId, inst: Instance, error: Problem, termination: Termination,
                       kind: Option<FailureKind>, summary: Option<Problem>, resume: bool) returns (failed: Instance)
      modifies store`results, store`log
      ensures failed == MarkFailed(inst, error, termination, kind, summary, resume) && failed.status == Failed
      ensures store.results == old(store.results) - {i} && store.log == old(store.log) + [BecameFailed(i)]
    {
      store.DeleteInstanceResult(i);
      failed := MarkInstanceFailed(i, inst, error, termination, kind, summary, resume);
    }

    // A successful attempt with nothing pending, ended in process.
    method FinishSuccess(task: Task, i: InstanceId, seen: Instance, dir: AttemptDir) returns (inst: Instance)
      modifies store`results, store`log
      ensures
        var ending := Concluded(task, store.interrupts, i, seen, dir);
        inst == ending.instance && store.results == StoreResult(old(store.results), i, ending.result) &&
        store.log == old(store.log) + ending.events + if inst.status == Done then [BecameDone(i)] else []
    {
      hide Materialize, FirstNotProduced, MissingDecisions, MarkFailed, StoreResult;
      StoreBranches(store.results, i);
      inst := seen;
      var problem := MaterializeInstanceResult(task, i, dir);
      if problem.None? {
        var published, lost := PromoteArtifacts(task, dir);
        if lost.Some? {
          problem := Some(NotProduced(lost.value));
        } else {
          inst := seen.(published := published);
        }
      }
      if problem.Some? {
        inst := FailAttempt(i, seen, problem.value, NonzeroExit, Some(TaskRuntime), problem, false);
        return;
      }
      var missing := CheckDecisionObligations(task, i);
      if missing != [] {
        var unmet := DecisionsMissing(missing);
        inst := FailAttempt(i, inst, unmet, Completed, Some(DecisionObligation), Some(unmet), false);
        return;
      }
      inst := inst.(status := Done, waitingForReplies := false, error := None, failureKind := None,
                    failureSummary := None, resumeRecommended := false);
      store.AppendEvent(BecameDone(i));
    }

    // The same code again, for an attempt found completed after a crash; it reports no done event.
    method RecoverSuccess(task: Task, i: InstanceId, seen: Instance, dir: AttemptDir) returns (inst: Instance)
      modifies store`results, store`log
      ensures
        var ending := Concluded(task, store.interrupts, i, seen, dir);
        inst == ending.instance && store.results == StoreResult(old(store.results), i, ending.result) &&
        store.log == old(store.log) + ending.events
    {
      hide Materialize, FirstNotProduced, MissingDecisions, MarkFailed, StoreResult;
      StoreBranches(store.results, i);
      inst := seen;
      var problem := MaterializeInstanceResult(task, i, dir);
      if problem.None? {
        var published, lost := PromoteArtifacts(task, dir);
        if lost.Some? {
          problem := Some(NotProduced(lost.value));
        } else {
          inst := seen.(published := published);
        }
      }
      if problem.Some? {
        inst := FailAttempt(i, seen, problem.value, NonzeroExit, Some(TaskRuntime), problem, false);
        return;
      }
      var missing := CheckDecisionObligations(task, i);
      if missing != [] {
        var unmet := DecisionsMissing(missing);
        inst := FailAttempt(i, inst, unmet, Completed, Some(DecisionObligation), Some(unmet), false);
        return;
      }
      inst := inst.(status := Done, waitingForReplies := false, error := None, failureKind := None,
                    failureSummary := None, resumeRecommended := false);
    }

    // The instance an attempt leaves in process, with the store updated to match.
    method FinishInstance(i: InstanceId, result: NodeResult, dir: AttemptDir) returns (inst: Instance)
      requires i in instances && instances[i].binding.task in tasks
      modifies store`results, store`log
      ensures
        var ending := Finished(tasks[instances[i].binding.task], store.interrupts, i, instances[i],
          StoredResult(old(store.results), i), result, dir);
        inst == ending.instance && store.results == StoreResult(old(store.results), i, ending.result) &&
        store.log == old(store.log) + ending.events
    {
      hide Concluded, OpenBlocking, MarkFailed, StoreResult;
      StoreBranches(store.results, i);
      var task := tasks[instances[i].binding.task];
      inst := instances[i].(termination := Some(ResultTermination(result)), failureKind := result.failureKind,
                            failureSummary := AsProblem(result.failureSummary),
                            resumeRecommended := result.resumeRecommended);
      if result.session.Some? {
        inst := inst.(session := result.session);
      }
      var blocking := RefreshInstanceInterrupts(i);
      inst := inst.(blocking := blocking);
      if blocking != {} {
        inst := inst.(status := Waiting, waitingForReplies := true, error := Some(RepliesPending));
        store.AppendEvent(BeganWaiting(i));
      } else if result.success {
        inst := FinishSuccess(task, i, inst, dir);
      } else {
        inst := FailAttempt(i, inst, TextOr(result.error, ExecFailed), ResultTermination(result), result.failureKind,
                            AsProblem(result.failureSummary), result.resumeRecommended);
      }
    }

    method EndAttempt(i: InstanceId, result: NodeResult, dir: AttemptDir)
      requires Valid() && i in live
      modifies this, store
      ensures Valid() && Stepped(old(Current()), Finish(i, result, dir), Current())
      ensures history == old(history) + [Finish(i, result, dir)]
      ensures Known(old(Current()), i) && instances.Keys == old(instances).Keys
      ensures FinishedAs(old(Current()), i, result, dir, instances[i], StoredResult(store.results, i))
    {
      hide RunOk, Evolves, Inv, Finished, Stepped, StoreResult, StoredResult, FinishedAs;
      ghost var before := Current();
      RunInv(Initial(tasks, userInputs), history, before);
      LiveIsKnown(before, i);
      FinishedAttempt(before, i, result, dir);
      var inst := FinishInstance(i, result, dir);
      store.AppendEvent(AttemptFinished(i, inst.attempt));
      instances := instances[i := inst];
      live := live - {i};
      history := history + [Finish(i, result, dir)];
      FinishStepped(before, i, result, dir, Current());
      FinishLeaves(before, i, result, dir, Current());
      StepTo(Initial(tasks, userInputs), old(history), before, Finish(i, result, dir), Current());
    }

    // Ends an attempt in flight. Replies the session has now seen are marked first.
    method FinishAttempt(i: InstanceId, result: NodeResult, dir: AttemptDir) returns (ghost mid: State)
      requires Valid() && i in live
      modifies this, store
      ensures Valid() && OnlyApplies(old(Current()), mid) && Stepped(mid, Finish(i, result, dir), Current())
      ensures Known(mid, i) && instances.Keys == old(instances).Keys
      ensures FinishedAs(mid, i, result, dir, instances[i], StoredResult(store.results, i))
      ensures old(live)[i].resumeSession.Some? || result.session.Some? ==>
        mid.interrupts == RepliesApplied(old(store.interrupts), i)
      ensures old(live)[i].resumeSession.None? && result.session.None? ==> mid == old(Current())
      ensures old(history) < history && Continued(old(history), history[..|history| - 1], IsApply)
      ensures history[|history| - 1] == Finish(i, result, dir)
    {
      hide RunOk, Stepped, FinishedAs, Inv;
      var request := live[i];
      if request.resumeSession.Some? || result.session.Some? {
        MarkResolvedInterruptsApplied(i);
      }
      mid := Current();
      EndAttempt(i, result, dir);
    }

    // ---------- recovery ----------

    // The instance a finished runtime record leaves, with the store updated to match.
    method RecoverInstance(i: InstanceId, runtime: Runtime, dir: AttemptDir) returns (inst: Instance)
      requires i in instances && instances[i].binding.task in tasks
      modifies store`results, store`log
      ensures
        var ending := Recovered(tasks[instances[i].binding.task], store.interrupts, i, instances[i],
          StoredResult(old(store.results), i), runtime, dir);
        inst == ending.instance && store.results == StoreResult(old(store.results), i, ending.result) &&
        store.log == old(store.log) + ending.events
    {
      hide Concluded, OpenBlocking, MarkFailed, StoreResult;
      StoreBranches(store.results, i);
      var task := tasks[instances[i].binding.task];
      var termination := RuntimeTermination(runtime);
      inst := instances[i].(termination := Some(termination), failureKind := runtime.failureKind,
                            failureSummary := AsProblem(runtime.failureSummary),
                            resumeRecommended := runtime.resumeRecommended);
      if termination == Completed {
        var blocking := RefreshInstanceInterrupts(i);
        inst := inst.(blocking := blocking);
        if blocking != {} {
          inst := inst.(status := Waiting, waitingForReplies := true, error := Some(RepliesPending));
          return;
        }
        inst := RecoverSuccess(task, i, inst, dir);
        return;
      }
      inst := FailAttempt(i, inst, TextOr(runtime.failureSummary, TerminationProblem(termination)), termination,
        runtime.failureKind,
                          AsProblem(runtime.failureSummary), runtime.resumeRecommended);
    }

    method ReconcileFinishedRuntime(i: InstanceId, runtime: Runtime, dir: AttemptDir)
      requires Valid() && live == map[] && i in instances && instances[i].status == Running
      modifies this, store
      ensures Valid() && Stepped(old(Current()), Recover(i, runtime, dir), Current())
      ensures history == old(history) + [Recover(i, runtime, dir)]
      ensures Known(old(Current()), i) && instances.Keys == old(instances).Keys
      ensures RecoveredAs(old(Current()), i, runtime, dir, instances[i], StoredResult(store.results, i))
    {
      hide RunOk, Evolves, Inv, Recovered, Stepped, StoreResult, RecoveredAs, Next, Enabled;
      ghost var before := Current();
      RunInv(Initial(tasks, userInputs), history, before);
      ScopePresent(before, i);
      var inst := RecoverInstance(i, runtime, dir);
      instances := instances[i := inst];
      history := history + [Recover(i, runtime, dir)];
      RecoverStepped(before, i, runtime, dir, Current());
      StepTo(Initial(tasks, userInputs), old(history), before, Recover(i, runtime, dir), Current());
      StepIs(before, Recover(i, runtime, dir), Current());
      RecoverOutcome(before, i, runtime, dir);
    }

    method GiveUpInstance(i: InstanceId, problem: Problem, reason: Termination)
      requires Valid() && live == map[] && i in instances && instances[i].status == Running
      modifies this, store
      ensures Valid() && Stepped(old(Current()), GiveUp(i, problem, reason), Current())
      ensures history == old(history) + [GiveUp(i, problem, reason)]
      ensures Current() == SetInstance(old(Current()), i,
        MarkFailed(old(instances)[i], problem, reason, None, None, false), [BecameFailed(i)])
    {
      hide RunOk;
      var failed := MarkFailed(instances[i], problem, reason, None, None, false);
      Commit(i, failed, [BecameFailed(i)], GiveUp(i, problem, reason));
    }

    // Decides one running instance by what is found out about it.
    method RecoverOne(i: InstanceId, o: Observation)
      requires Valid() && live == map[] && i in instances && instances[i].status == Running
      modifies this, store
      ensures Valid() && RecoveredOne(old(Current()), Current(), i, o)
      ensures old(history) <= history && Continued(old(history), history, IsRecovery)
    {
      hide RunOk, Inv, Stepped, MarkFailed, RecoveredOne, Continued;
      ghost var before := Current();
      RunInv(Initial(tasks, userInputs), history, before);
      ScopePresent(before, i);
      ContinuedNone(history, IsRecovery);
      match o {
        case JustStarted => AloneRecovers(before, i, o);
        case Alive => AloneRecovers(before, i, o);
        case RuntimeLost => GiveUpAs(i, RuntimeMissing, Orphaned, o);
        case WorkerDead => GiveUpAs(i, WorkerGone, Orphaned, o);
        case Stale(reason) => GiveUpAs(i, TerminationProblem(reason), reason, o);
        case RunEnded(runtime, dir) =>
          ReconcileFinishedRuntime(i, runtime, dir);
          EndedRecovers(before, i, runtime, dir, Current());
          ContinuedOne(old(history), old(history), Recover(i, runtime, dir), IsRecovery);
      }
    }

    method GiveUpAs(i: InstanceId, problem: Problem, reason: Termination, ghost o: Observation)
      requires Valid() && live == map[] && Known(Current(), i) && instances[i].status == Running
      requires AfterRecovery(Current(), i, o) == MarkFailed(instances[i], problem, reason, None, None, false)
      modifies this, store
      ensures Valid() && RecoveredOne(old(Current()), Current(), i, o)
      ensures old(history) <= history && Continued(old(history), history, IsRecovery)
    {
      hide RunOk, Stepped, MarkFailed, RecoveredOne;
      ghost var before := Current();
      GiveUpInstance(i, problem, reason);
      GiveUpRecovers(before, i, problem, reason, o, Current());
    }

    method RecoverInstances(observe: InstanceId -> Observation)
      requires Valid() && live == map[]
      modifies this, store
      ensures Valid() && RecoveredAll(old(Current()), Current(), observe, old(instances).Keys)
      ensures old(history) <= history && Continued(old(history), history, IsRecovery)
    {
      hide RunOk, Inv, RecoveredAll, RecoveredOne, Continued;
      ghost var start := Current();
      RunInv(Initial(tasks, userInputs), history, start);
      NothingRecovered(start, observe);
      ContinuedNone(history, IsRecovery);
      var todo := instances.Keys;
      ghost var known := instances.Keys;
      assert known - todo == {};
      while todo != {}
        invariant Valid() && live == map[] && todo <= known == instances.Keys
        invariant RecoveredAll(start, Current(), observe, known - todo)
        invariant old(history) <= history && Continued(old(history), history, IsRecovery)
      {
        var i :| i in todo;
        ghost var before, soFar, done := Current(), history, known - todo;
        ContinuedNone(history, IsRecovery);
        if instances[i].status == Running {
          RecoverOne(i, observe(i));
          RecoveredKeeps(before, Current(), i, observe(i));
        }
        RecoverMore(start, before, Current(), observe, done, i);
        ContinuedJoin(old(history), soFar, history, IsRecovery, IsRecovery);
        todo := todo - {i};
        assert known - todo == done + {i};
      }
      assert known - todo == known;
    }

    // Decides each running instance, then brings the run up to date.
    method ReconcileRun(observe: InstanceId -> Observation) returns (ghost mid: State)
      requires Valid() && live == map[]
      modifies this, store
      ensures Valid() && live == map[] && SyncClosed(Current()) && old(history) <= history
      ensures RecoveredAll(old(Current()), mid, observe, old(instances).Keys) && Refreshing(mid, Current())
      ensures (forall i :: i in instances ==> SweptIn(Current(), i)) && NoneAwaitsFailed(Current())
      ensures forall i :: i in instances && instances[i].status == Running ==>
        i in old(instances) && SaidToRun(observe(i))
      ensures status == FinalStatus(Statuses(instances)) && Reports(status, instances)
    {
      hide RunOk, RecoveredIn, SweptIn, SyncClosed, Refreshing, FinalStatus, Continued, Reports, NoneAwaitsFailed;
      ghost var start := Current();
      RecoverInstances(observe);
      mid := Current();
      RecoveredRunning(start, mid, observe);
      SyncAndRefresh();
      RefreshingKeepsRunning(mid, Current());
      FinalizeRunState();
    }

    // Sync, then one sweep.
    method SyncAndRefresh()
      requires Valid()
      modifies this, store
      ensures Valid() && SyncClosed(Current()) && Refreshing(old(Current()), Current()) && old(history) <= history
      ensures (forall i :: i in instances ==> SweptIn(Current(), i)) && NoneAwaitsFailed(Current())
      ensures Continued(old(history), history, IsUpdate)
      ensures forall x :: WillRehearse(old(Current()), x) ==> Decided(Current(), x)
    {
      hide RunOk, SyncClosed, SweptIn, WillRehearse, Decided, Sweeping, GrowsBoth, NoneAwaitsFailed;
      ghost var start := Current();
      SyncInstances();
      ghost var mid := Current();
      RefreshRunnableInstances();
      SweepKeepsClosed(mid, Current());
      SweepKeepsDecided(mid, Current());
      SyncThenSweep(start, mid, Current());
    }

    // What abort does with one instance that is not at its end.
    method AbortInstance(i: InstanceId)
      requires Valid() && live == map[] && i in instances && instances[i].status !in {Done, Skipped, Failed}
      modifies this, store
      ensures Valid() && Stepped(old(Current()), Abort(i), Current()) && history == old(history) + [Abort(i)]
      ensures Current() == old(Current()).(instances := old(instances)[i := Aborted(old(instances)[i])])
    {
      hide RunOk, Stepped;
      var inst := instances[i];
      if inst.status == Pending || inst.status == Runnable {
        inst := inst.(status := Skipped);
      } else {
        inst := inst.(status := Failed);
      }
      inst := inst.(error := Some(AbortedByUser), waitingForReplies := false, termination := Some(Terminated),
                    failureKind := Some(UnknownFailure), failureSummary := Some(AbortedByUser),
                    resumeRecommended := false);
      AbortStepped(Current(), i);
      Commit(i, inst, [], Abort(i));
    }

    // Skips what never ran and fails the rest.
    method AbortRun()
      requires Valid() && live == map[]
      modifies this, store
      ensures Valid() && status == RunFailed && instances.Keys == old(instances).Keys
      ensures Current() == old(Current()).(instances := instances) && Continued(old(history), history, IsAbort)
      ensures forall i :: i in old(instances) ==>
        instances[i] == AfterAbort(old(instances)[i]) && IsAbortedFrom(old(instances)[i], instances[i])
    {
      hide RunOk, Stepped, Aborted, IsAbortedFrom;
      var todo := instances.Keys;
      while todo != {}
        invariant Valid() && Current() == old(Current()).(instances := instances)
        invariant todo <= instances.Keys == old(instances).Keys
        invariant Continued(old(history), history, IsAbort)
        invariant forall i :: i in todo ==> instances[i] == old(instances)[i]
        invariant forall i :: i in old(instances) && i !in todo ==> instances[i] == AfterAbort(old(instances)[i])
      {
        var i :| i in todo;
        todo := todo - {i};
        if instances[i].status != Done && instances[i].status != Skipped && instances[i].status != Failed {
          AbortInstance(i);
        }
      }
      status := RunFailed;
      forall i | i in old(instances)
        ensures IsAbortedFrom(old(instances)[i], instances[i])
      {
        AbortOutcome(old(instances)[i]);
      }
    }

    method RetryInstance(i: InstanceId)
      requires Valid() && i in instances && instances[i].status == Failed
      modifies this, store
      ensures Valid() && Stepped(old(Current()), Requeue(i), Current()) && history == old(history) + [Requeue(i)]
      ensures Current() == old(Current()).(instances := old(instances)[i := Retried(old(instances)[i])],
        log := old(store.log) + [Requeued(i)])
    {
      hide RunOk;
      var inst := instances[i].(status := Runnable, waitingForReplies := false, error := None, termination := None,
                                failureKind := None, failureSummary := None, resumeRecommended := false);
      Commit(i, inst, [Requeued(i)], Requeue(i));
    }

    // Makes every failed instance whose failure recommends it runnable again.
    method RequeueRecoverableInstances() returns (changed: bool)
      requires Valid()
      modifies this, store
      ensures Valid() && Current() == old(Current()).(instances := instances, log := store.log)
      ensures instances.Keys == old(instances).Keys
      ensures old(history) <= history && Continued(old(history), history, IsRequeuing)
      ensures forall i :: i in old(instances) ==>
        instances[i] == AfterRequeue(old(instances)[i]) && IsRequeued(old(instances)[i], instances[i])
      ensures changed <==> exists i :: i in old(instances) && Recoverable(old(instances)[i])
      ensures forall i :: i in old(instances) && Recoverable(old(instances)[i]) ==>
        Requeue(i) in Added(old(history), history)
    {
      hide RunOk, Stepped, RequeuedSoFar;
      changed := false;
      var todo := instances.Keys;
      RequeuedNone(instances, history);
      while todo != {}
        invariant Valid() && Current() == old(Current()).(instances := instances, log := store.log)
        invariant todo <= instances.Keys && old(history) <= history
        invariant RequeuedSoFar(old(instances), instances, todo, old(history), history, changed)
      {
        var i :| i in todo;
        ghost var before, soFar, left := instances, history, todo;
        todo := todo - {i};
        if instances[i].status == Failed && instances[i].resumeRecommended {
          RetryInstance(i);
          RequeuedOne(old(instances), before, left, old(history), soFar, changed, i);
          changed := true;
        } else {
          RequeuedPast(old(instances), before, left, old(history), soFar, changed, i);
        }
      }
      RequeuedAll(old(instances), instances, old(history), history, changed);
    }

    // ---------- the loop ----------

    // A worker's requests for help while its attempt runs, in order.
    method AskAll(i: InstanceId, asks: seq<Interrupt>)
      requires Valid() && i in instances
      modifies this, store
      ensures Valid() && instances == old(instances) && live == old(live) && old(history) <= history
      ensures Asked(Added(old(history), history), i, asks)
    {
      hide RunOk, Stepped;
      for k := 0 to |asks|
        invariant Valid() && instances == old(instances) && live == old(live) && old(history) <= history
        invariant Asked(Added(old(history), history), i, asks[..k])
      {
        ghost var before := Current();
        var n := CreateInterrupt(asks[k].(instance := i));
        AskTouches(before, n.value, asks[k].(instance := i, status := Open), Current());
        assert asks[..k + 1] == asks[..k] + [asks[k]];
      }
      assert asks[..|asks|] == asks;
    }

    // Begins one waiting instance of a round.
    method StartOne(i: InstanceId)
      requires Valid() && i in instances && instances[i].status == Runnable
      modifies this, store
      ensures Valid() && OnlyTouches(old(Current()), Current(), i, old(live).Keys + {i})
      ensures Continued(old(history), history, IsAttempt) && history == old(history) + [Begin(i)]
      ensures old(history) <= history && Elements(Begins(Added(old(history), history))) == {i}
    {
      hide RunOk, Stepped;
      ghost var before := Current();
      var begun := BeginAttempt(i);
      BeginTouches(before, i, Current());
      assert Added(old(history), history) == [Begin(i)];
    }

    // Lets one attempt in flight end with its outcome: what its worker asks for, and then what it returns and leaves.
    method EndOne(i: InstanceId, outcome: Outcome)
      requires Valid() && i in live && i in instances
      modifies this, store
      ensures Valid() && OnlyTouches(old(Current()), Current(), i, old(live).Keys - {i})
      ensures Continued(old(history), history, IsAttempt)
      ensures old(history) <= history && IsEpisode(Added(old(history), history), i, outcome)
      ensures Elements(Begins(Added(old(history), history))) == {}
    {
      hide RunOk, Stepped, OnlyApplies, Asked, Continued, Begins, IsEpisode, FinishedAs;
      AskAll(i, outcome.asks);
      ghost var asked, soFar := Current(), history;
      AskedOnly(old(history), soFar, i, outcome.asks);
      ghost var mid := FinishAttempt(i, outcome.result, outcome.dir);
      FinishTouches(asked, mid, i, outcome.result, outcome.dir, Current());
      EpisodeOf(old(history), soFar, history, i, outcome);
      EndingsBeginNothing(old(history), soFar, history);
    }

    // Some of the replies that are under way arrive; those to unknown interrupts are refused.
    method TakeReplies(inbox: seq<Message>) returns (rest: seq<Message>)
      requires Valid()
      modifies this, store
      ensures Valid() && |rest| <= |inbox| && Answers(history) + |rest| <= Answers(old(history)) + |inbox|
      ensures instances == old(instances) && live == old(live) && scopes == old(scopes)
      ensures old(history) <= history && Continued(old(history), history, IsAnswer)
      ensures rest == inbox[|inbox| - |rest|..]
      ensures Added(old(history), history) == Arrivals(inbox[..|inbox| - |rest|], old(store.interrupts).Keys)
    {
      hide RunOk, Stepped, Answers;
      var k :| 0 <= k <= |inbox|;
      AnswersCounted(history, history);
      for j := 0 to k
        invariant Valid() && Answers(history) <= Answers(old(history)) + j
        invariant instances == old(instances) && live == old(live) && scopes == old(scopes)
        invariant old(history) <= history && Continued(old(history), history, IsAnswer)
        invariant store.interrupts.Keys == old(store.interrupts).Keys
        invariant Added(old(history), history) == Arrivals(inbox[..j], old(store.interrupts).Keys)
      {
        ghost var before, soFar := Current(), history;
        assert inbox[..j + 1] == inbox[..j] + [inbox[j]];
        var ok := SaveReply(inbox[j].interrupt, inbox[j].reply);
        if ok {
          AnswerTouches(before, inbox[j].interrupt, inbox[j].reply, Current());
          OneAnswer(soFar, history);
        }
      }
      rest := inbox[k..];
    }

    // One event of a round: a waiting instance begins if a slot is free, or an attempt in flight ends.
    method StartOrEnd(waiting: set<InstanceId>, flying: set<InstanceId>, world: (InstanceId, nat) -> Outcome)
      returns (waiting': set<InstanceId>, flying': set<InstanceId>)
      requires Valid() && InRound(Current(), waiting, flying) && |flying| <= maxConcurrency
      requires waiting != {} || flying != {}
      modifies this, store
      ensures Valid() && InRound(Current(), waiting', flying') && |flying'| <= maxConcurrency && waiting' <= waiting
      ensures waiting' != waiting || (flying' <= flying && flying' != flying)
      ensures old(history) <= history && Continued(old(history), history, IsAttempt)
      ensures Elements(Begins(Added(old(history), history))) == waiting - waiting'
      ensures Heard(old(history), history, world, [])
    {
      hide RunOk, Inv, OnlyTouches, InRound, Continued, Begins, Heard, IsEpisode, AttemptsOf;
      ghost var before := Current();
      RoundKnows(before, waiting, flying);
      if
      case waiting != {} && |flying| < maxConcurrency =>
        var i :| i in waiting;
        StartOne(i);
        SilentHeard(old(history), history, world, []);
        RoundGoesOn(before, Current(), i, waiting, flying, flying + {i});
        assert waiting - (waiting - {i}) == {i};
        waiting', flying' := waiting - {i}, flying + {i};
      case flying != {} =>
        var i :| i in flying;
        AttemptIsCount(Initial(tasks, userInputs), history, before, i);
        EndOne(i, world(i, live[i].attempt));
        EpisodeHeard(old(history), history, i, world, []);
        RoundGoesOn(before, Current(), i, waiting, flying, flying - {i});
        assert waiting - {i} == waiting && waiting - waiting == {};
        waiting', flying' := waiting, flying - {i};
    }

    // The same, after some replies have arrived.
    method TakeTurn(waiting: set<InstanceId>, flying: set<InstanceId>, world: (InstanceId, nat) -> Outcome,
                    inbox: seq<Message>)
      returns (waiting': set<InstanceId>, flying': set<InstanceId>, rest: seq<Message>)
      requires Valid() && InRound(Current(), waiting, flying) && |flying| <= maxConcurrency
      requires waiting != {} || flying != {}
      modifies this, store
      ensures Valid() && InRound(Current(), waiting', flying') && |flying'| <= maxConcurrency && waiting' <= waiting
      ensures waiting' != waiting || (flying' <= flying && flying' != flying)
      ensures old(history) <= history && Continued(old(history), history, IsTurn)
      ensures Elements(Begins(Added(old(history), history))) == waiting - waiting'
      ensures Heard(old(history), history, world, inbox) && Within(rest, inbox)
      ensures |rest| <= |inbox| && Answers(history) + |rest| <= Answers(old(history)) + |inbox|
    {
      hide RunOk, Inv, InRound, Continued, Begins, Answers, Heard, Arrivals;
      ghost var before := Current();
      rest := TakeReplies(inbox);
      ArrivalsHeard(old(history), history, inbox[..|inbox| - |rest|], before.interrupts.Keys, world, inbox);
      RoundStays(before, Current(), waiting, flying);
      ghost var soFar := history;
      waiting', flying' := StartOrEnd(waiting, flying, world);
      TurnSteps(old(history), soFar, history);
      HeardJoin(old(history), soFar, history, world, inbox, []);
    }

    // Runs the given runnable instances, at most maxConcurrency at a time, starting and ending them in any order.
    method ExecuteRound(ids: set<InstanceId>, world: (InstanceId, nat) -> Outcome, inbox: seq<Message>)
      returns (rest: seq<Message>)
      requires Valid() && InRound(Current(), ids, {})
      modifies this, store
      ensures Valid() && live == map[] && old(history) <= history && Continued(old(history), history, IsTurn)
      ensures Elements(Begins(Added(old(history), history))) == ids
      ensures Heard(old(history), history, world, inbox) && Within(rest, inbox)
      ensures |rest| <= |inbox| && Answers(history) + |rest| <= Answers(old(history)) + |inbox|
    {
      hide RunOk, Inv, InRound, BegunOf, Answers, Heard;
      var waiting, flying := ids, {};
      rest := inbox;
      RoundBegins(history, ids);
      SilentHeard(history, history, world, inbox);
      while waiting != {} || flying != {}
        invariant Valid() && InRound(Current(), waiting, flying) && |flying| <= maxConcurrency
        invariant BegunOf(old(history), history, ids, waiting)
        invariant |rest| <= |inbox| && Answers(history) + |rest| <= Answers(old(history)) + |inbox|
        invariant Heard(old(history), history, world, inbox) && Within(rest, inbox)
        decreases waiting, flying
      {
        ghost var soFar, left, before := history, waiting, rest;
        waiting, flying, rest := TakeTurn(waiting, flying, world, rest);
        HeardJoin(old(history), soFar, history, world, inbox, before);
        MoreBegins(old(history), soFar, history, ids, left, waiting);
      }
      RoundKnows(Current(), waiting, flying);
      RoundBegun(old(history), history, ids);
    }

    // Brings the run up to date; then either nothing is runnable, or exactly what is gets its attempt.
    method NextRound(world: (InstanceId, nat) -> Outcome, inbox: seq<Message>)
      returns (returned: bool, rest: seq<Message>, ghost synced: State)
      requires Valid() && live == map[]
      modifies this, store
      ensures Valid() && live == map[] && old(history) <= history && Continued(old(history), history, IsOrdinary)
      ensures Refreshing(old(Current()), synced) && (returned <==> RunnableIds(synced.instances) == {})
      ensures Elements(Begins(Added(old(history), history))) == RunnableIds(synced.instances)
      ensures forall i :: i in Begins(Added(old(history), history)) <==>
        i in synced.instances && synced.instances[i].status == Runnable
      ensures returned ==> AtRest(Current()) && SyncClosed(Current()) && status == FinalStatus(Statuses(instances))
      ensures returned ==> NoneAwaitsFailed(Current()) && Reports(status, instances)
      ensures SyncClosed(synced) && forall i :: i in synced.instances ==> SweptIn(synced, i)
      ensures Heard(old(history), history, world, inbox) && Within(rest, inbox)
      ensures |rest| <= |inbox| && Answers(history) + |rest| <= Answers(old(history)) + |inbox|
    {
      hide RunOk, SyncClosed, SweptIn, InRound, Continued, Begins, FinalStatus, Refreshing, RunnableIds, AtRest,
        Answers, Reports, NoneAwaitsFailed, Heard;
      SyncAndRefresh();
      SilentHeard(old(history), history, world, inbox) by {
        UpdatesSilent(old(history), history);
      }
      synced, rest := Current(), inbox;
      RunnableAre(instances);
      RefreshingKeepsRunning(old(Current()), synced);
      UpdatesBeginNothing(old(history), history);
      var runnable := RunnableIds(instances);
      if runnable == {} {
        FinalizeRunState();
        NothingRunnable(Current());
        returned := true;
      } else {
        status := RunRunning;
        ghost var soFar := history;
        RunnableRound(Current());
        rest := ExecuteRound(runnable, world, inbox);
        HeardJoin(old(history), soFar, history, world, inbox, inbox);
        ContinuedWider(soFar, history, IsTurn, IsOrdinary);
        ContinuedJoin(old(history), soFar, history, IsOrdinary, IsOrdinary);
        AddedBegins(old(history), soFar, history);
        returned := false;
      }
    }

    // Rounds until nothing is runnable, at most fuel of them. The replies of inbox may arrive meanwhile.
    method RunSnapshot(fuel: nat, world: (InstanceId, nat) -> Outcome, inbox: seq<Message>) returns (returned: bool)
      requires Valid() && live == map[]
      modifies this, store
      ensures Valid() && live == map[] && old(history) <= history && Continued(old(history), history, IsOrdinary)
      ensures returned ==> AtRest(Current()) && SyncClosed(Current()) && status == FinalStatus(Statuses(instances))
      ensures returned ==> NoneAwaitsFailed(Current()) && Reports(status, instances)
      ensures Heard(old(history), history, world, inbox)
      ensures OncePerStretch(history) && |Begins(Added(old(history), history))| <= |instances| + |inbox|
      ensures returned && NeverAborted(old(Current())) ==>
        (status == RunDone <==> forall i :: i in instances ==> instances[i].status == Done)
      ensures NothingRuns(old(Current())) ==> NothingRuns(Current())
      ensures !returned ==> fuel <= |Begins(Added(old(history), history))|
      ensures NoLoops(tasks) && fuel > |tasks| + |inbox| ==> returned
      ensures SeedsOrdered(tasks) && fuel > |tasks| * |scopes| + |inbox| ==> returned
    {
      hide RunOk, AtRest, SyncClosed, Refreshing, RunnableIds, SeedsOrdered, NoLoops, Continued, Begins, FinalStatus,
        NoDuplicates, NeverAborted, NothingRuns, OncePerStretch, Answers, Reports, NoneAwaitsFailed,
        Heard;
      returned := false;
      ghost var start := Current();
      var rounds, rest := 0, inbox;
      NothingAdded(history);
      SilentHeard(history, history, world, inbox);
      while rounds < fuel && !returned
        invariant Valid() && live == map[] && rounds <= fuel
        invariant old(history) <= history && Continued(old(history), history, IsOrdinary)
        invariant |Begins(Added(old(history), history))| >= rounds
        invariant |rest| <= |inbox| && Answers(history) + |rest| <= Answers(old(history)) + |inbox|
        invariant returned ==> AtRest(Current()) && SyncClosed(Current()) && status == FinalStatus(Statuses(instances))
        invariant returned ==> NoneAwaitsFailed(Current()) && Reports(status, instances)
        invariant Heard(old(history), history, world, inbox) && Within(rest, inbox)
        decreases fuel - rounds, !returned
      {
        ghost var soFar, before := history, rest;
        ghost var synced;
        returned, rest, synced := NextRound(world, rest);
        HeardJoin(old(history), soFar, history, world, inbox, before);
        ContinuedJoin(old(history), soFar, history, IsOrdinary, IsOrdinary);
        AddedBegins(old(history), soFar, history);
        SomeBegun(Begins(Added(soFar, history)), RunnableIds(synced.instances));
        rounds := if returned then rounds else rounds + 1;
      }
      AttemptsOfRun(Initial(tasks, userInputs), old(history), start, history, Current());
      AnswersCounted(old(history), history);
      AttemptedOnce(Initial(tasks, userInputs), history, Current());
      if NothingRuns(start) {
        NothingLeftRunning(Initial(tasks, userInputs), old(history), start, history, Current());
      }
      if returned && NeverAborted(start) {
        ReportsDone(Initial(tasks, userInputs), old(history), start, history, Current());
      }
      RoundsBounded(Initial(tasks, userInputs), history, Current());
    }

    method AnyRunning() returns (running: bool)
      ensures running <==> !NothingRuns(Current())
      ensures running ==> exists i :: i in instances && instances[i].status == Running
      ensures running ==> FinalStatus(Statuses(instances)) == RunRunning
    {
      var todo := instances.Keys;
      while todo != {}
        invariant todo <= instances.Keys && forall i :: i in instances && i !in todo ==> instances[i].status != Running
      {
        var i :| i in todo;
        todo := todo - {i};
        if instances[i].status == Running {
          RunningShows(instances, i);
          return true;
        }
      }
      running := false;
    }

    // Recovers what it can, makes recoverable failures runnable, and goes on unless something still runs.
    method ResumeRun(observe: InstanceId -> Observation, fuel: nat, world: (InstanceId, nat) -> Outcome,
                     inbox: seq<Message>)
      returns (returned: bool, ghost mid: State, ghost reconciled: State)
      requires Valid() && live == map[]
      modifies this, store
      ensures Valid() && live == map[] && old(history) <= history
      ensures RecoveredAll(old(Current()), mid, observe, old(instances).Keys) && Refreshing(mid, reconciled)
      ensures SyncClosed(reconciled) && (!NothingRuns(reconciled) ==> returned && Current() == reconciled)
      ensures NothingRuns(reconciled) ==>
        forall i :: i in reconciled.instances && Recoverable(reconciled.instances[i]) ==>
          Requeue(i) in Added(old(history), history)
      ensures returned ==> SyncClosed(Current()) && status == FinalStatus(Statuses(instances))
      ensures returned ==> NoneAwaitsFailed(Current()) && Reports(status, instances)
      ensures returned && status != RunRunning ==> AtRest(Current())
      ensures !returned ==> NothingRuns(Current())
      ensures !NothingRuns(Current()) ==> exists i :: i in old(instances) && SaidToRun(observe(i))
      ensures NoLoops(tasks) && fuel > |tasks| + |inbox| ==> returned
    {
      hide RunOk, SyncClosed, AtRest, SweptIn, Continued, Begins, NeverAborted, Statuses, FinalStatus, Stepped,
        NoDuplicates, Sweeping, AfterRequeue, NothingRuns, OncePerStretch, NoLoops, Reports, NoneAwaitsFailed,
        RecoveredAll, IsRequeued, Refreshing, SeedsOrdered, Answers;
      mid := ReconcileRun(observe);
      reconciled := Current();
      ghost var soFar := history;
      var running := AnyRunning();
      if running {
        returned := true;
        return;
      }
      var changed := RequeueRecoverableInstances();
      RequeueStartsNothing(reconciled, Current());
      ghost var requeuing := history;
      if changed {
        ghost var requeued := Current();
        RefreshRunnableInstances();
        SweepStartsNothing(requeued, Current());
        FinalizeRunState();
      }
      returned := RunSnapshot(fuel, world, inbox);
      AddedStays(old(history), soFar, requeuing, history);
    }

    // Makes one failed instance runnable again, whatever its failure recommends, and resumes the run.
    method ForceRetryInstance(i: InstanceId, observe: InstanceId -> Observation, fuel: nat,
                              world: (InstanceId, nat) -> Outcome, inbox: seq<Message>)
      returns (r: Result<bool>)
      requires Valid() && live == map[]
      modifies this, store
      ensures Valid() && live == map[] && (r.Ok? <==> i in old(instances) && old(instances)[i].status == Failed)
      ensures r.Ok? ==> old(history) + [Requeue(i)] <= history
      ensures r.Error? ==> Current() == old(Current()) && history == old(history)
    {
      hide RunOk, SyncClosed, AtRest, NothingRuns, Stepped, NoLoops;
      if i !in instances {
        return Error("instance not found");
      }
      if instances[i].status != Failed {
        return Error("instance is not failed");
      }
      RetryInstance(i);
      var returned, _, _ := ResumeRun(observe, fuel, world, inbox);
      r := Ok(returned);
    }
  }

  predicate HasRoots(pool: Tasks, roots: set<TaskId>) {
    roots != {} && roots <= pool.Keys
  }

  // Validates the pool, freezes what the roots need, and brings the new run up to date.
  method CreateSnapshot(pool: Tasks, roots: set<TaskId>, labels: set<string>, userInputs: map<string, Json>,
                        maxConcurrency: nat)
    returns (r: Result<Run>)
    requires maxConcurrency >= 1
    ensures r.Ok? <==> ValidTasks(pool) && HasRoots(pool, RootIds(pool, roots, labels))
    ensures r.Ok? ==> fresh(r.value) && fresh(r.value.store) && r.value.Valid() && r.value.live == map[]
    ensures r.Ok? ==> IsLeastSelection(r.value.tasks, pool, RootIds(pool, roots, labels))
    ensures r.Ok? ==> r.value.userInputs == userInputs
    ensures r.Ok? ==> Refreshing(Initial(r.value.tasks, userInputs), r.value.Current())
    ensures r.Ok? ==> Continued([], r.value.history, IsUpdate) && r.value.maxConcurrency == maxConcurrency
    ensures r.Ok? ==> SyncClosed(r.value.Current()) && NothingRuns(r.value.Current()) && NeverAborted(r.value.Current())
    ensures r.Ok? ==> forall i :: i in r.value.instances ==> SweptIn(r.value.Current(), i)
  {
    hide ValidTasks, IsLeastSelection, RootIds, AllPresent, RunOk, SyncClosed, SweptIn, NeverAborted, Refreshing;
    var valid := ValidateTaskGraph(pool);
    if !valid {
      return Error("the task graph is not valid");
    }
    var selected := SelectSubgraph(pool, roots, labels);
    RootsDecide(pool, RootIds(pool, roots, labels));
    if selected.Error? {
      return Error(selected.message);
    }
    LeastSelectionValid(selected.value, pool, RootIds(pool, roots, labels));
    var run := new Run(selected.value, userInputs, maxConcurrency);
    ghost var start := run.Current();
    run.SyncAndRefresh();
    FreshlySnapshot(start, run.history, run.Current());
    r := Ok(run);
  }

  // In a valid pool only a root can be missing.
  lemma RootsDecide(pool: Tasks, roots: set<TaskId>)
    ensures AllPresent(pool, roots) ==> roots <= pool.Keys
    ensures ValidTasks(pool) && roots <= pool.Keys ==> AllPresent(pool, roots)
  {
    hide Acyclic;
    forall t | t in roots
      ensures Needed(pool, roots, t)
    {
    }
    if ValidTasks(pool) && roots <= pool.Keys {
      NeedsStayInPool(pool);
      forall t | Needed(pool, roots, t)
        ensures t in pool
      {
        if t !in roots {
          var root :| root in roots && Reaches(NeedsMap(pool), root, t);
          ReachesStaysIn(NeedsMap(pool), pool.Keys, root, t);
        }
      }
    }
  }

  lemma NeedsStayInPool(pool: Tasks)
    requires DepsExist(pool) && RoutesOk(pool)
    ensures forall t :: t in pool ==> NeedsMap(pool)[t] <= pool.Keys
  {
    forall t, n | t in pool && n in NeedsMap(pool)[t]
      ensures n in pool
    {
      if n in ControlTargets(pool[t]) {
        assert TargetOk(pool, t, n);
      }
    }
  }

  lemma LeastSelectionValid(part: Tasks, pool: Tasks, roots: set<TaskId>)
    requires ValidTasks(pool) && IsLeastSelection(part, pool, roots)
    ensures ValidTasks(part)
  {
    hide ValidTasks, IsSelection;
    SelectionValid(part, pool);
  }

  lemma FreshlySnapshot(start: State, history: seq<Action>, st: State)
    requires StartsRun(start) && RunOk(start, history, st) && Refreshing(start, st) && Continued([], history, IsUpdate)
    ensures NothingRuns(st) && NeverAborted(st) && st.live == map[]
  {
    hide ValidTasks, IsRun, Inv;
    InitialOk(start.tasks, start.userInputs);
    RunWithoutAbort(start, history, st);
  }

  function RunnableIds(instances: map<InstanceId, Instance>): set<InstanceId> {
    set i | i in instances && instances[i].status == Runnable
  }

  lemma RunnableAre(instances: map<InstanceId, Instance>)
    ensures forall i :: i in RunnableIds(instances) <==> i in instances && instances[i].status == Runnable
  {
  }

  predicate IsRequeuing(a: Action) {
    a.Requeue?
  }

  lemma AskedOnly(before: seq<Action>, after: seq<Action>, i: InstanceId, asks: seq<Interrupt>)
    requires before <= after && Asked(Added(before, after), i, asks)
    ensures Continued(before, after, IsAsk)
  {
    forall k | |before| <= k < |after|
      ensures after[k].Ask?
    {
      assert IsRequest(Added(before, after)[k - |before|], i, asks[k - |before|]);
    }
  }

  lemma EndingsBeginNothing(before: seq<Action>, mid: seq<Action>, after: seq<Action>)
    requires before <= mid < after && Continued(before, mid, IsAsk) && Continued(mid, after[..|after| - 1], IsApply)
    requires after[|after| - 1].Finish?
    ensures Continued(before, after, IsAttempt) && Elements(Begins(Added(before, after))) == {}
  {
    forall k | |before| <= k < |after|
      ensures IsAttempt(after[k]) && !after[k].Begin?
    {
      assert k < |mid| ==> mid[k] == after[k] && IsAsk(mid[k]);
      assert |mid| <= k < |after| - 1 ==> after[..|after| - 1][k] == after[k] && IsApply(after[k]);
    }
    NoBegins(Added(before, after));
  }

  lemma UpdatesBeginNothing(before: seq<Action>, after: seq<Action>)
    requires before <= after && Continued(before, after, IsUpdate)
    ensures Continued(before, after, IsOrdinary) && Elements(Begins(Added(before, after))) == {}
    ensures Begins(Added(before, after)) == [] && Answers(after) == Answers(before)
  {
    NoBegins(Added(before, after));
    AnswersCounted(before, after);
  }

  predicate IsAsk(a: Action) {
    a.Ask?
  }

  // All recoverable instances but those in todo have been requeued, by steps that are in the history.
  ghost predicate RequeuedSoFar(start: map<InstanceId, Instance>, instances: map<InstanceId, Instance>,
                                todo: set<InstanceId>, before: seq<Action>, history: seq<Action>, changed: bool) {
    before <= history && Continued(before, history, IsRequeuing) && instances.Keys == start.Keys &&
    (forall i :: i in start ==> instances[i] == if i in todo then start[i] else AfterRequeue(start[i])) &&
    (forall i :: i in start && i !in todo && Recoverable(start[i]) ==> Requeue(i) in Added(before, history)) &&
    (changed <==> exists i :: i in start && i !in todo && Recoverable(start[i]))
  }

  lemma RequeuedNone(instances: map<InstanceId, Instance>, history: seq<Action>)
    ensures RequeuedSoFar(instances, instances, instances.Keys, history, history, false)
  {
  }

  lemma RequeuedOne(start: map<InstanceId, Instance>, instances: map<InstanceId, Instance>, todo: set<InstanceId>,
                    before: seq<Action>, history: seq<Action>, changed: bool, i: InstanceId)
    requires RequeuedSoFar(start, instances, todo, before, history, changed) && i in todo && i in instances
    requires Recoverable(instances[i])
    ensures RequeuedSoFar(start, instances[i := Retried(instances[i])], todo - {i}, before, history + [Requeue(i)],
      true)
  {
    hide Retried;
    AddedOne(before, history, history + [Requeue(i)], Requeue(i));
  }

  lemma RequeuedPast(start: map<InstanceId, Instance>, instances: map<InstanceId, Instance>, todo: set<InstanceId>,
                     before: seq<Action>, history: seq<Action>, changed: bool, i: InstanceId)
    requires RequeuedSoFar(start, instances, todo, before, history, changed) && i in todo && i in instances
    requires !Recoverable(instances[i])
    ensures RequeuedSoFar(start, instances, todo - {i}, before, history, changed)
  {
    hide Retried;
  }

  lemma RequeuedAll(start: map<InstanceId, Instance>, instances: map<InstanceId, Instance>, before: seq<Action>,
                    history: seq<Action>, changed: bool)
    requires RequeuedSoFar(start, instances, {}, before, history, changed)
    ensures before <= history && Continued(before, history, IsRequeuing) && instances.Keys == start.Keys
    ensures forall i :: i in start ==> instances[i] == AfterRequeue(start[i]) && IsRequeued(start[i], instances[i])
    ensures changed <==> exists i :: i in start && Recoverable(start[i])
    ensures forall i :: i in start && Recoverable(start[i]) ==> Requeue(i) in Added(before, history)
  {
    hide IsRequeued, AfterRequeue;
    forall i | i in start
      ensures IsRequeued(start[i], instances[i])
    {
      RequeueOutcome(start[i]);
    }
  }

  lemma AddedOne(before: seq<Action>, mid: seq<Action>, after: seq<Action>, a: Action)
    requires before <= mid && after == mid + [a]
    ensures before <= after && a in Added(before, after)
    ensures forall b :: b in Added(before, mid) ==> b in Added(before, after)
  {
    assert Added(before, after) == Added(before, mid) + [a];
  }

  lemma AddedStays(start: seq<Action>, before: seq<Action>, mid: seq<Action>, after: seq<Action>)
    requires start <= before <= mid <= after
    ensures start <= after && forall a :: a in Added(before, mid) ==> a in Added(start, after)
  {
    assert Added(start, after) == Added(start, before) + Added(before, mid) + Added(mid, after);
  }

  lemma UpdatesSilent(before: seq<Action>, after: seq<Action>)
    requires before <= after && Continued(before, after, IsUpdate)
    ensures forall k :: |before| <= k < |after| ==> IsSilent(after[k])
  {
  }

  predicate IsUpdate(a: Action) {
    a.NewScope? || a.AddInstance? || a.Refresh?
  }

  predicate IsAnswer(a: Action) {
    a.Answer?
  }

  predicate IsTurn(a: Action) {
    IsAttempt(a) || a.Answer?
  }

  // The resolved ones among these interrupts have been marked applied.
  ghost predicate AppliedOf(before: map<InterruptId, Interrupt>, after: map<InterruptId, Interrupt>,
                            ns: seq<InterruptId>) {
    after.Keys == before.Keys &&
    forall n :: n in before ==>
      after[n] == if n in ns && before[n].status == Resolved then before[n].(status := InterruptStatus.Applied)
      else before[n]
  }

  lemma NothingApplied(st: State, found: seq<InterruptId>)
    ensures OnlyApplies(st, st) && AppliedOf(st.interrupts, st.interrupts, found[..0])
  {
  }

  lemma AppliedPresent(start: map<InterruptId, Interrupt>, interrupts: map<InterruptId, Interrupt>,
                       found: seq<InterruptId>, k: nat)
    requires k < |found| && AppliedOf(start, interrupts, found[..k]) && forall n :: n in found ==> n in start
    ensures found[k] in interrupts
  {
  }

  lemma AppliedNext(start: map<InterruptId, Interrupt>, before: map<InterruptId, Interrupt>,
                    after: map<InterruptId, Interrupt>, found: seq<InterruptId>, k: nat)
    requires k < |found| && AppliedOf(start, before, found[..k]) && found[k] in before
    requires
      var n := found[k];
      after == if before[n].status == Resolved then before[n := before[n].(status := InterruptStatus.Applied)]
      else before
    ensures AppliedOf(start, after, found[..k + 1])
  {
    assert found[..k + 1] == found[..k] + [found[k]];
  }

  lemma AppliedAll(before: map<InterruptId, Interrupt>, after: map<InterruptId, Interrupt>, found: seq<InterruptId>,
                   i: InstanceId)
    requires AppliedOf(before, after, found)
    requires forall n :: n in found <==> n in before && before[n].instance == i
    ensures after == RepliesApplied(before, i)
  {
  }

  lemma SweepKeepsDecided(st: State, st': State)
    requires Sweeping(st, st')
    ensures st'.live == st.live && forall x :: Decided(st, x) ==> Decided(st', x)
  {
    hide Decided;
    assert forall i :: i in st.instances ==> SweptFrom(st.instances[i], st'.instances[i]);
    assert GraphOf(st'.instances) == GraphOf(st.instances);
    forall x | Decided(st, x)
      ensures Decided(st', x)
    {
      DecidedStays(st, st', x);
    }
  }

  lemma AnswerTouches(st: State, n: InterruptId, reply: Reply, st': State)
    requires Stepped(st, Answer(n, reply), st')
    ensures st'.instances == st.instances && st'.live == st.live && st'.scopes == st.scopes && st'.tasks == st.tasks
    ensures st'.interrupts.Keys == st.interrupts.Keys
  {
  }

  lemma OneAnswer(before: seq<Action>, after: seq<Action>)
    requires before <= after && |after| == |before| + 1
    ensures Answers(after) <= Answers(before) + 1
  {
    AnswersCounted(before, after);
    assert Added(before, after)[1..] == [];
  }

  lemma RoundStays(st: State, st': State, waiting: set<InstanceId>, flying: set<InstanceId>)
    requires InRound(st, waiting, flying) && st'.instances == st.instances && st'.live == st.live
    ensures InRound(st', waiting, flying)
  {
  }

  lemma TurnSteps(before: seq<Action>, mid: seq<Action>, after: seq<Action>)
    requires before <= mid <= after && Continued(before, mid, IsAnswer) && Continued(mid, after, IsAttempt)
    ensures before <= after && Continued(before, after, IsTurn) && Answers(after) == Answers(mid)
    ensures Elements(Begins(Added(before, after))) == Elements(Begins(Added(mid, after)))
  {
    hide Begins, Answers;
    forall k | |before| <= k < |after|
      ensures IsTurn(after[k])
    {
      assert k < |mid| ==> mid[k] == after[k] && IsAnswer(mid[k]);
      assert k >= |mid| ==> IsAttempt(after[k]);
    }
    AddedBegins(before, mid, after);
    forall k | 0 <= k < |Added(before, mid)|
      ensures !Added(before, mid)[k].Begin?
    {
      assert IsAnswer(mid[|before| + k]);
    }
    NoBegins(Added(before, mid));
    assert forall k :: |mid| <= k < |after| ==> IsAttempt(after[k]);
    AnswersCounted(mid, after);
  }

  predicate IsAttempt(a: Action) {
    a.Begin? || a.Finish? || a.Ask? || a.Apply?
  }

  // Of the instances ids of a round all have begun but those that still wait.
  ghost predicate BegunOf(before: seq<Action>, history: seq<Action>, ids: set<InstanceId>, waiting: set<InstanceId>) {
    before <= history && Continued(before, history, IsTurn) && waiting <= ids &&
    Elements(Begins(Added(before, history))) == ids - waiting
  }

  lemma RoundBegins(history: seq<Action>, ids: set<InstanceId>)
    ensures BegunOf(history, history, ids, ids)
  {
    assert Added(history, history) == [] && Begins([]) == [];
  }

  lemma RoundBegun(before: seq<Action>, history: seq<Action>, ids: set<InstanceId>)
    requires BegunOf(before, history, ids, {})
    ensures before <= history && Continued(before, history, IsTurn)
    ensures Elements(Begins(Added(before, history))) == ids
  {
    hide Begins;
    assert ids - {} == ids;
  }

  lemma NothingAdded(history: seq<Action>)
    ensures Added(history, history) == [] && |Begins(Added(history, history))| == 0
    ensures Continued(history, history, IsOrdinary)
  {
  }

  lemma NothingRunnable(st: State)
    requires forall i :: i in st.instances ==> SweptIn(st, i)
    requires RunnableIds(st.instances) == {}
    ensures AtRest(st)
  {
    hide Swept;
    assert forall i :: i in st.instances && st.instances[i].status == Runnable ==> i in RunnableIds(st.instances);
  }

  lemma RunnableRound(st: State)
    requires st.live == map[]
    ensures InRound(st, RunnableIds(st.instances), {})
  {
  }

  lemma RoundKnows(st: State, waiting: set<InstanceId>, flying: set<InstanceId>)
    requires InRound(st, waiting, flying)
    ensures forall i :: i in waiting ==> i in st.instances && i !in flying && st.instances[i].status == Runnable
    ensures flying == st.live.Keys && flying <= st.instances.Keys && flying !! waiting
    ensures flying == {} ==> st.live == map[]
  {
  }

  lemma MoreBegins(before: seq<Action>, mid: seq<Action>, after: seq<Action>, ids: set<InstanceId>,
                   left: set<InstanceId>, waiting: set<InstanceId>)
    requires BegunOf(before, mid, ids, left) && mid <= after && Continued(mid, after, IsTurn)
    requires waiting <= left && Elements(Begins(Added(mid, after))) == left - waiting
    ensures BegunOf(before, after, ids, waiting)
  {
    hide Begins;
    ContinuedJoin(before, mid, after, IsTurn, IsTurn);
    AddedBegins(before, mid, after);
    assert (ids - left) + (left - waiting) == ids - waiting;
  }

  lemma RequeueStartsNothing(st: State, st': State)
    requires st'.instances.Keys == st.instances.Keys
    requires forall i :: i in st.instances ==> st'.instances[i] == AfterRequeue(st.instances[i])
    ensures NothingRuns(st) ==> NothingRuns(st')
  {
  }

  lemma SweepStartsNothing(st: State, st': State)
    requires Sweeping(st, st')
    ensures st'.live == st.live && (NothingRuns(st) ==> NothingRuns(st'))
  {
    forall i | i in st'.instances && st'.instances[i].status == Running
      ensures i in st.instances && st.instances[i].status == Running
    {
      assert SweptFrom(st.instances[i], st'.instances[i]);
    }
  }

  lemma AloneRecovers(st: State, i: InstanceId, o: Observation)
    requires Known(st, i) && SaidToRun(o)
    ensures RecoveredOne(st, st, i, o)
  {
  }

  lemma RecoveredKeeps(st: State, st': State, i: InstanceId, o: Observation)
    requires RecoveredOne(st, st', i, o)
    ensures st'.live == st.live && st'.instances.Keys == st.instances.Keys
  {
  }

  lemma RunningShows(instances: map<InstanceId, Instance>, i: InstanceId)
    requires i in instances && instances[i].status == Running
    ensures FinalStatus(Statuses(instances)) == RunRunning
  {
    assert instances[i].status in Statuses(instances);
  }

  lemma SomeBegun(begins: seq<InstanceId>, ids: set<InstanceId>)
    requires Elements(begins) == ids
    ensures ids != {} ==> |begins| >= 1
  {
  }

  lemma RoundsBounded(start: State, history: seq<Action>, st: State)
    requires RunOk(start, history, st)
    ensures NoLoops(st.tasks) ==> |st.instances| <= |st.tasks|
    ensures SeedsOrdered(st.tasks) ==> |st.instances| <= |st.tasks| * |st.scopes|
  {
    hide Reachable, RunOk, NoLoops, SeedsOrdered, Clean;
    RunReachable(start, history, st);
    RunOrdered(start, history, st);
    if NoLoops(st.tasks) {
      InstancesWithoutLoops(st);
    }
    if SeedsOrdered(st.tasks) {
      InstancesTimesScopes(st);
    }
  }

  lemma LiveIsKnown(st: State, i: InstanceId)
    requires Inv(st) && i in st.live
    ensures Known(st, i) && st.instances[i].status == Running
  {
    hide GraphOk, ControlOk;
    assert InstanceOk(st, i);
  }

  lemma FreshRunOk(tasks: Tasks, userInputs: map<string, Json>)
    requires ValidTasks(tasks)
    ensures RunOk(Initial(tasks, userInputs), [], Initial(tasks, userInputs))
  {
    hide ValidTasks, Inv, SeedsOrdered;
    InitialOk(tasks, userInputs);
  }

  lemma AbortStepped(st: State, i: InstanceId)
    requires st.live == map[] && i in st.instances && st.instances[i].status !in {Done, Skipped, Failed}
    ensures Stepped(st, Abort(i), SetInstance(st, i, Aborted(st.instances[i]), []))
  {
  }

  lemma BeginStepped(st: State, i: InstanceId, st': State)
    requires i in st.instances && st.instances[i].status == Runnable
    requires st' == st.(instances := st.instances[i := Begun(st.instances[i])],
                        log := st.log + [AttemptStarted(i, st.instances[i].attempt + 1)],
                        live := st.live[i := Request(st.instances[i].attempt + 1, st.instances[i].session)])
    ensures Stepped(st, Begin(i), st')
  {
  }

  lemma FinishStepped(st: State, i: InstanceId, result: NodeResult, dir: AttemptDir, st': State)
    requires i in st.live && Known(st, i)
    requires
      var inst := st.instances[i];
      var ending := Finished(st.tasks[inst.binding.task], st.interrupts, i, inst, StoredResult(st.results, i), result,
        dir);
      st'.instances == st.instances[i := ending.instance] && st'.results == StoreResult(st.results, i, ending.result) &&
      st'.log == st.log + ending.events + [AttemptFinished(i, inst.attempt)]
    requires st' == st.(instances := st'.instances, results := st'.results, log := st'.log, live := st.live - {i})
    ensures Stepped(st, Finish(i, result, dir), st')
  {
    hide Finished;
  }

  lemma RecoverStepped(st: State, i: InstanceId, runtime: Runtime, dir: AttemptDir, st': State)
    requires st.live == map[] && Known(st, i) && st.instances[i].status == Running
    requires
      var inst := st.instances[i];
      st' == SetEnding(st, i, Recovered(st.tasks[inst.binding.task], st.interrupts, i, inst,
        StoredResult(st.results, i), runtime, dir), [])
    ensures Stepped(st, Recover(i, runtime, dir), st')
  {
    hide Recovered;
  }

  lemma FinishedAttempt(st: State, i: InstanceId, result: NodeResult, dir: AttemptDir)
    requires Known(st, i)
    ensures Finished(st.tasks[st.instances[i].binding.task], st.interrupts, i, st.instances[i],
      StoredResult(st.results, i), result, dir).instance.attempt == st.instances[i].attempt
  {
    hide Materialize, FirstNotProduced, MissingDecisions, OpenBlocking;
  }

  predicate AsksFor(interrupt: Interrupt, d: DecisionKind, a: Audience) {
    interrupt.decision == Some(d) && interrupt.audience == a && interrupt.blocking
  }

  lemma CreatedMatches(interrupts: map<InterruptId, Interrupt>, i: InstanceId, found: seq<InterruptId>,
                       created: set<(DecisionKind, Audience)>, r: RequiredDecision)
    requires forall n :: n in found <==> n in interrupts && interrupts[n].instance == i
    requires forall d, a :: (d, a) in created <==> exists j :: 0 <= j < |found| && AsksFor(interrupts[found[j]], d, a)
    ensures DecisionMade(interrupts, i, r) <==>
      match r.audience
      case AnyAudience => (r.decision, Audience.Assistant) in created || (r.decision, Audience.Human) in created
      case Only(a) => (r.decision, a) in created
  {
    if DecisionMade(interrupts, i, r) {
      var n :| n in interrupts && Matches(interrupts[n], i, r);
      assert n in found;
      var j :| 0 <= j < |found| && found[j] == n;
      assert (r.decision, interrupts[n].audience) in created;
    }
    forall a | (r.decision, a) in created
      ensures exists n :: n in interrupts && interrupts[n].instance == i && AsksFor(interrupts[n], r.decision, a)
    {
      var j :| 0 <= j < |found| && AsksFor(interrupts[found[j]], r.decision, a);
      assert found[j] in found;
    }
  }

  ghost predicate AllBindings(st: State, t: TaskId, s: ScopeId,
                              bindings: seq<(map<TaskId, InstanceId>, map<TaskId, InstanceId>)>) {
    Closed(GraphOf(st.instances)) &&
    forall j :: 0 <= j < |bindings| ==>
      IsBinding(st.tasks, st.scopes, GraphOf(st.instances), st.results, t, s, bindings[j].0, bindings[j].1)
  }

  lemma AllBindingsSurvive(st: State, id: InstanceId, b: Binding, st': State, t: TaskId, s: ScopeId,
                           bindings: seq<(map<TaskId, InstanceId>, map<TaskId, InstanceId>)>)
    requires Inv(st) && Stepped(st, AddInstance(id, b), st') && b.task == t && Closed(GraphOf(st'.instances))
    requires AllBindings(st, t, s, bindings)
    ensures AllBindings(st', t, s, bindings)
  {
    hide Inv, Stepped, IsBinding, Closed;
    forall j | 0 <= j < |bindings|
      ensures IsBinding(st'.tasks, st'.scopes, GraphOf(st'.instances), st'.results, t, s, bindings[j].0, bindings[j].1)
    {
      BindingsSurvive(st, id, b, st', t, s, bindings[j].0, bindings[j].1);
    }
  }

  lemma BindingsFound(st: State, t: TaskId, s: ScopeId,
                      bindings: seq<(map<TaskId, InstanceId>, map<TaskId, InstanceId>)>)
    requires Closed(GraphOf(st.instances))
    requires FindsCandidates(st.tasks, st.scopes, GraphOf(st.instances), st.results, t, s, bindings)
    ensures AllBindings(st, t, s, bindings)
  {
    hide IsBinding, IsCandidate;
  }

  lemma EmptyCache(g: Graph)
    requires Closed(g)
    ensures CacheOk(g, map[])
  {
  }

  lemma CreatorsExact(scopes: map<ScopeId, InputScope>, existing: set<InstanceId>)
    requires existing == set s | s in scopes && scopes[s].creator.Some? :: scopes[s].creator.value
    ensures forall x :: x in existing <==> OwnsScope(scopes, x)
  {
    forall x
      ensures x in existing <==> OwnsScope(scopes, x)
    {
    }
  }

  lemma FoundNew(start: State, before: State, t: TaskId, s: ScopeId,
                 bindings: seq<(map<TaskId, InstanceId>, map<TaskId, InstanceId>)>, k: nat, id: InstanceId,
                 after: State)
    requires NewFrom(start, before, t, s) && AllBindings(start, t, s, bindings) && k < |bindings|
    requires after.instances == before.instances[id := NewInstance(Binding(t, s, bindings[k].0, bindings[k].1))]
    ensures NewFrom(start, after, t, s)
  {
    hide NewFrom, IsCandidate, MergedActivation;
    var b := Binding(t, s, bindings[k].0, bindings[k].1);
    assert IsBinding(start.tasks, start.scopes, GraphOf(start.instances), start.results, t, s, bindings[k].0,
      bindings[k].1);
    NewFromOne(start, before, id, b, after);
  }

  // Bindings found when what t depends on has been caught stay clean.
  lemma BindingAddsClean(start: State, before: State, t: TaskId, s: ScopeId,
                         bindings: seq<(map<TaskId, InstanceId>, map<TaskId, InstanceId>)>, k: nat)
    requires Closed(GraphOf(start.instances)) && t in start.tasks && AllBindings(start, t, s, bindings)
    requires k < |bindings|
    requires SeedsOrdered(start.tasks) ==> AllCaught(start, s, DepTasks(start.tasks[t]))
    requires GrowsInstances(start, before)
    ensures AddsClean(before, Binding(t, s, bindings[k].0, bindings[k].1))
  {
    hide SeedsOrdered, AllCaught, Between, IsCandidate, MergedActivation, Closed;
    if SeedsOrdered(start.tasks) {
      var b := Binding(t, s, bindings[k].0, bindings[k].1);
      CaughtIsClean(start, t, s, b.deps, b.activation);
      TaskOfCandidate(start.tasks, start.scopes, GraphOf(start.instances), start.results, t, s, b.deps);
      assert forall d :: d in b.deps ==> GraphOf(before.instances)[b.deps[d]] == GraphOf(start.instances)[b.deps[d]];
    }
  }

  lemma FoundFilled(start: State, st: State, t: TaskId, s: ScopeId,
                    bindings: seq<(map<TaskId, InstanceId>, map<TaskId, InstanceId>)>)
    requires Closed(GraphOf(start.instances))
    requires FindsCandidates(start.tasks, start.scopes, GraphOf(start.instances), start.results, t, s, bindings)
    requires forall k :: 0 <= k < |bindings| ==> Key(t, bindings[k].0, s) in KeysOfInstances(st.instances)
    ensures Filled(start, st, t, s)
  {
    hide IsCandidate, IsBinding, KeysOfInstances;
  }

  lemma RunOrdered(start: State, history: seq<Action>, st: State)
    requires RunOk(start, history, st)
    ensures Ordered(st)
  {
    hide StartsRun, IsRun, Inv, Ordered;
  }

  lemma TurnReady(start: State, st: State, s: ScopeId, order: seq<TaskId>, k: nat)
    requires Inv(st) && s in st.scopes && Sorted(order) && Elements(order) == st.tasks.Keys && k < |order|
    requires ScopeSoFar(start, st, s, Elements(order[..k]))
    ensures order[k] in st.tasks && (SeedsOrdered(st.tasks) ==> AllCaught(st, s, DepTasks(st.tasks[order[k]])))
  {
    hide Inv, SeedsOrdered, AllCaught;
    if SeedsOrdered(st.tasks) {
      DepsCaught(st, s, order, k);
    }
  }

  lemma TurnTaken(start: State, before: State, after: State, s: ScopeId, order: seq<TaskId>, k: nat, created: bool,
                  made: bool)
    requires Inv(before) && Inv(after) && Ordered(before) && s in before.scopes
    requires Sorted(order) && Elements(order) == before.tasks.Keys && k < |order|
    requires ScopeSoFar(start, before, s, Elements(order[..k])) && ScopeCarried(start, before, s, order[..k])
    requires Visited(start, before, Elements(order[..k]), {s}, created)
    requires Visited(before, after, {order[k]}, {s}, made)
    requires NewFrom(before, after, order[k], s) && Filled(before, after, order[k], s)
    ensures ScopeSoFar(start, after, s, Elements(order[..k + 1])) && ScopeCarried(start, after, s, order[..k + 1])
    ensures Visited(start, after, Elements(order[..k + 1]), {s}, created || made) && after.scopes == before.scopes
  {
    hide Inv, Ordered, ScopeSoFar, AllSynced, NewOnlyAt, Filled, NewFrom, ScopeCarried;
    assert order[..k + 1] == order[..k] + [order[k]];
    NewFromAt(before, after, order[k], s);
    ScopeNext(start, before, after, s, order, k);
    ScopeCarriedVisit(start, before, after, order[k], s, order[..k]);
    VisitMore(start, before, after, Elements(order[..k]), {s}, {order[k]}, {s}, Elements(order[..k + 1]), {s}, created,
      made);
  }

  lemma OneOrder(start: State, st: State, s: ScopeId, order: seq<TaskId>)
    requires IsOrder(start.tasks, order) && ScopeCarried(start, st, s, order)
    ensures forall other {:trigger ScopeCarried(start, st, s, other)} ::
      IsOrder(start.tasks, other) ==> ScopeCarried(start, st, s, other)
  {
    hide ScopeCarried, Sorted;
    forall other | IsOrder(start.tasks, other)
      ensures ScopeCarried(start, st, s, other)
    {
      SortedUnique(order, other);
    }
  }

  lemma PassTurn(start: State, before: State, after: State, done: set<ScopeId>, s: ScopeId, created: bool, made: bool)
    requires Inv(before) && Inv(after) && s in start.scopes && PassCarried(start, before, done)
    requires s !in done && ScopeSoFar(before, after, s, before.tasks.Keys)
    requires forall order {:trigger ScopeCarried(before, after, s, order)} ::
      IsOrder(before.tasks, order) ==> ScopeCarried(before, after, s, order)
    requires Visited(start, before, start.tasks.Keys, done, created)
    requires Visited(before, after, before.tasks.Keys, {s}, made)
    ensures PassCarried(start, after, done + {s})
    ensures Visited(start, after, start.tasks.Keys, done + {s}, created || made) && after.scopes == before.scopes
  {
    hide Inv, ScopeSoFar, AllSynced, PassCarried, ScopeCarried, IsOrder;
    ScopeSoFarNew(before, after, s);
    PassCarriedNext(start, before, after, done, s);
    VisitMore(start, before, after, start.tasks.Keys, done, start.tasks.Keys, {s}, start.tasks.Keys, done + {s},
      created, made);
  }

  lemma ScopeSoFarNew(before: State, after: State, s: ScopeId)
    requires ScopeSoFar(before, after, s, before.tasks.Keys)
    ensures NewOnlyAt(before, after, before.tasks.Keys, {s})
  {
    hide AllCaught, NewOnlyAt;
  }

  // Each pass adds its visits to the iterations that were opened.
  lemma PassRehearsed(start: State, before: State, mid: State, after: State, order: seq<TaskId>, passes: nat,
                      created: bool)
    requires Inv(start) && Inv(mid) && GrowsScopes(before, mid) && forall x :: !MayOpenScope(mid, x)
    requires IsOrder(mid.tasks, order) && PassCarried(mid, after, mid.scopes.Keys)
    requires Visited(mid, after, mid.tasks.Keys, mid.scopes.Keys, created)
    requires passes == 0 ==> before == start
    requires passes > 0 ==> forall x :: WillRehearse(start, x) ==> StandsAfter(start, before, x, order, passes)
    ensures forall x :: WillRehearse(start, x) ==> StandsAfter(start, after, x, order, passes + 1)
  {
    hide Inv, PassCarried, WillRehearse, StandsAfter, MayOpenScope, AllSynced, IsOrder, GrowsScopes, GrowsInstances;
    forall x | WillRehearse(start, x)
      ensures StandsAfter(start, after, x, order, passes + 1)
    {
      if passes == 0 {
        OpenedStands(start, mid, x, order);
      } else {
        StandsOn(start, before, mid, x, order, passes);
      }
      PassStands(start, mid, after, x, order, passes);
    }
  }

  lemma AllDecided(start: State, st: State, order: seq<TaskId>, passes: nat)
    requires Inv(st) && Reachable(st) && SyncClosed(st) && IsOrder(st.tasks, order)
    requires forall x :: WillRehearse(start, x) ==> StandsAfter(start, st, x, order, passes)
    ensures forall x :: WillRehearse(start, x) ==> Decided(st, x)
  {
    hide Inv, Reachable, SyncClosed, IsOrder, WillRehearse, StandsAfter, Decided;
    forall x | WillRehearse(start, x)
      ensures Decided(st, x)
    {
      StandingDecided(start, st, x, order, passes);
    }
  }

  lemma VisitedOne(st: State, st': State, t: TaskId, s: ScopeId, created: bool)
    requires GrowsInstances(st, st') && (created <==> st'.instances != st.instances)
    requires !created ==> st' == st && TaskSynced(st, t, s)
    requires TaskSynced(st, t, s) ==> !created
    ensures Visited(st, st', {t}, {s}, created)
  {
    hide TaskSynced;
  }

  lemma OnlyKnownOpen(st: State)
    ensures forall x :: MayOpenScope(st, x) ==> x in st.instances
  {
  }

  // Scopes opened so far; only controllers among todo may still be without theirs.
  ghost predicate ScopesSoFar(start: State, st: State, todo: set<InstanceId>, existing: set<InstanceId>,
                              created: bool) {
    GrowsScopes(start, st) && (forall x :: x in existing <==> OwnsScope(st.scopes, x)) &&
    (forall x :: MayOpenScope(st, x) ==> x in todo && MayOpenScope(start, x)) &&
    if created then exists x :: MayOpenScope(start, x) else st == start
  }

  lemma ScopesUnchanged(st: State, existing: set<InstanceId>)
    requires existing == set s | s in st.scopes && st.scopes[s].creator.Some? :: st.scopes[s].creator.value
    ensures ScopesSoFar(st, st, st.instances.Keys, existing, false)
  {
    hide MayOpenScope, OwnsScope;
    CreatorsExact(st.scopes, existing);
    OnlyKnownOpen(st);
  }

  lemma CreatorKnown(start: State, st: State, todo: set<InstanceId>, existing: set<InstanceId>, created: bool,
                     x: InstanceId)
    requires ScopesSoFar(start, st, todo, existing, created)
    ensures x in existing <==> OwnsScope(st.scopes, x)
  {
    hide MayOpenScope, OwnsScope;
  }

  lemma ScopesNext(start: State, before: State, after: State, todo: set<InstanceId>, existing: set<InstanceId>,
                   created: bool, x: InstanceId, s: ScopeId, made: bool)
    requires ScopesSoFar(start, before, todo, existing, created) && (made <==> MayOpenScope(before, x))
    requires if made then Stepped(before, NewScope(s, x), after) else after == before
    ensures ScopesSoFar(start, after, todo - {x}, if made then existing + {x} else existing, created || made)
    ensures after.instances == before.instances
  {
    hide MayOpenScope, OwnsScope, Stepped;
    if made {
      ScopeOpenedLeaves(before, s, x, after);
    }
  }

  lemma ScopesDone(start: State, st: State, existing: set<InstanceId>, created: bool)
    requires ScopesSoFar(start, st, {}, existing, created)
    ensures GrowsScopes(start, st) && (forall x :: !MayOpenScope(st, x)) && (!created ==> st == start)
    ensures created ==> exists x :: MayOpenScope(start, x)
  {
    hide MayOpenScope, OwnsScope;
  }

  lemma SameInstances(before: State, mid: State)
    requires GrowsScopes(before, mid)
    ensures mid.instances == before.instances
  {
  }

  lemma BothReflexive(st: State)
    ensures GrowsBoth(st, st)
  {
  }

  lemma BothGrow(start: State, before: State, mid: State, after: State, created: bool)
    requires GrowsBoth(start, before) && GrowsScopes(before, mid)
    requires Visited(mid, after, mid.tasks.Keys, mid.scopes.Keys, created)
    ensures GrowsBoth(start, after)
  {
    hide AllSynced;
  }

  lemma SyncMeasure(before: State, mid: State, after: State, rank: map<TaskId, nat>, scopesMade: bool,
                    instancesMade: bool)
    requires Inv(before) && Inv(mid) && Inv(after) && DepsExist(before.tasks) && Ranks(DependsMap(before.tasks), rank)
    requires GrowsScopes(before, mid) && Visited(mid, after, mid.tasks.Keys, mid.scopes.Keys, instancesMade)
    requires (forall x :: !MayOpenScope(mid, x)) && (!scopesMade ==> mid == before)
    requires scopesMade ==> exists x :: MayOpenScope(before, x)
    ensures after.tasks == before.tasks && Outstanding(after) == {} && Room(before, rank) >= 0
    ensures scopesMade ==> |Outstanding(before)| > 0
    ensures !scopesMade ==> Outstanding(before) == {}
    ensures !scopesMade && instancesMade ==> Room(after, rank) < Room(before, rank)
  {
    hide Inv, AllSynced;
    RoomLeft(before, rank);
    assert forall x :: !MayOpenScope(after, x) by {
      GrowthOpensNothing(mid, after);
    }
    OnlyKnownOpen(before);
    if x :| MayOpenScope(before, x) {
      assert x in Outstanding(before);
    }
    if instancesMade {
      MoreInstances(mid, after);
    }
  }

  lemma SyncSettled(before: State, mid: State, after: State, scopesMade: bool, instancesMade: bool)
    requires GrowsScopes(before, mid) && Visited(mid, after, mid.tasks.Keys, mid.scopes.Keys, instancesMade)
    requires (forall x :: !MayOpenScope(mid, x)) && (!scopesMade ==> mid == before)
    requires scopesMade ==> exists x :: MayOpenScope(before, x)
    ensures !scopesMade && !instancesMade ==> SyncClosed(after)
    ensures SyncClosed(before) ==> !scopesMade && !instancesMade && after == before
  {
    hide MayOpenScope, AllSynced;
  }
}
