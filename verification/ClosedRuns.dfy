// What a run that sync has closed contains: which tasks have instances, and that iterations start.
module ClosedRuns {
  import opened Domain
  import opened Closure
  import opened TaskGraph
  import opened InstanceGraph
  import opened Iterations
  import opened ControlEnvelope
  import opened RunState
  import opened Invariants
  import opened Preservation
  import opened RunTheorems
  import opened RunSteps

  ghost predicate InBase(g: Graph, x: InstanceId) {
    x in g && g[x].scope == BASE
  }

  lemma UpstreamInBase(tasks: Tasks, scopes: map<ScopeId, InputScope>, g: Graph, i: InstanceId, x: InstanceId)
    requires DepsExist(tasks) && Typed(tasks, g) && AllPlaced(tasks, scopes, g) && InBase(g, i) && x in Upstream(g, i)
    ensures InBase(g, x)
  {
    hide CanReuseBase;
    ScopeIsolation(tasks, scopes, g, i, x);
  }

  // Base instances never contradict each other.
  lemma BaseDepsCoherent(tasks: Tasks, scopes: map<ScopeId, InputScope>, g: Graph, deps: map<TaskId, InstanceId>)
    requires DepsExist(tasks) && Typed(tasks, g) && AllPlaced(tasks, scopes, g) && KeysUnique(g)
    requires forall d :: d in deps ==> InBase(g, deps[d])
    ensures DepsIn(g, deps) && Coherent(g, UpstreamOf(g, deps))
  {
    hide AllPlaced, KeysUnique;
    forall x | x in UpstreamOf(g, deps)
      ensures InBase(g, x)
    {
      var d :| d in deps && x in Upstream(g, deps[d]);
      UpstreamInBase(tasks, scopes, g, deps[d], x);
    }
    forall x, y | x in UpstreamOf(g, deps) && y in UpstreamOf(g, deps) && SameTask(g, x, y)
      ensures x == y
    {
      AtMostOneInBase(tasks, scopes, g, x, y);
    }
  }

  // In a closed run every valid binding has its instance.
  lemma CandidateInstance(st: State, t: TaskId, s: ScopeId, deps: map<TaskId, InstanceId>) returns (i: InstanceId)
    requires SyncClosed(st) && t in st.tasks && s in st.scopes && Closed(GraphOf(st.instances))
    requires IsCandidate(st.tasks, st.scopes, GraphOf(st.instances), st.results, t, s, deps)
    ensures i in st.instances && KeyOf(st.instances[i].binding) == Key(t, deps, s)
  {
    hide IsCandidate, MayOpenScope;
    assert TaskSynced(st, t, s);
    i :| i in st.instances && KeyOf(st.instances[i].binding) == Key(t, deps, s);
  }

  lemma CandidateHasInstance(st: State, t: TaskId, s: ScopeId, deps: map<TaskId, InstanceId>)
    requires SyncClosed(st) && t in st.tasks && s in st.scopes && Closed(GraphOf(st.instances))
    requires IsCandidate(st.tasks, st.scopes, GraphOf(st.instances), st.results, t, s, deps)
    ensures HasInScope(GraphOf(st.instances), t, s)
  {
    hide IsCandidate, SyncClosed;
    var i := CandidateInstance(st, t, s, deps);
    assert GraphOf(st.instances)[i].task == t;
  }

  // ---------- the base scope ----------

  // A base instance of d that lets t go on: any, or one whose control chose t if d controls t.
  ghost predicate Admits(st: State, t: TaskId, d: TaskId, x: InstanceId) {
    InBase(GraphOf(st.instances), x) && GraphOf(st.instances)[x].task == d &&
    (ControlOwner(st.tasks, t) == Some(d) ==> Selects(st.tasks, GraphOf(st.instances), st.results, x, t))
  }

  ghost predicate AllAdmit(st: State, t: TaskId)
    requires t in st.tasks
  {
    forall d :: d in DepTasks(st.tasks[t]) ==> exists x :: Admits(st, t, d, x)
  }

  ghost function Admitting(st: State, t: TaskId): (deps: map<TaskId, InstanceId>)
    requires t in st.tasks && AllAdmit(st, t)
    ensures deps.Keys == DepTasks(st.tasks[t]) && forall d :: d in deps ==> Admits(st, t, d, deps[d])
  {
    map d | d in DepTasks(st.tasks[t]) :: (var x :| Admits(st, t, d, x); x)
  }

  lemma AdmittedIsCandidate(st: State, t: TaskId, deps: map<TaskId, InstanceId>)
    requires Inv(st) && t in st.tasks && deps.Keys == DepTasks(st.tasks[t])
    requires forall d :: d in deps ==> Admits(st, t, d, deps[d])
    ensures Closed(GraphOf(st.instances))
    ensures IsCandidate(st.tasks, st.scopes, GraphOf(st.instances), st.results, t, BASE, deps)
  {
    hide Inv, InstancesOk, StoreOk, ControlOk, AllPlaced, Typed, KeysUnique, RoutesOk, WellFormed, Selects, Coherent,
      GraphOk;
    InvParts(st);
    GraphParts(st);
    assert BASE in st.scopes;
    hide ScopesOk;
    var g := GraphOf(st.instances);
    BaseDepsCoherent(st.tasks, st.scopes, g, deps);
    forall d | d in deps
      ensures MayFill(st.tasks, st.scopes, g, st.results, t, BASE, d, deps[d])
    {
      assert Admits(st, t, d, deps[d]);
    }
  }

  lemma InstanceIsAdmitted(st: State, i: InstanceId)
    requires Inv(st) && i in st.instances && st.instances[i].binding.scope == BASE
    ensures st.instances[i].binding.task in st.tasks && AllAdmit(st, st.instances[i].binding.task)
  {
    hide Inv, InstancesOk, StoreOk, RoutesOk, Selects, GraphOk, ScopesOk, KeysUnique, WellFormed;
    InvParts(st);
    GraphParts(st);
    var g := GraphOf(st.instances);
    var b := g[i];
    assert BindingTyped(st.tasks, g, b) && BindingPlaced(st.tasks, st.scopes, g, b) && OwnerOk(st, i);
    forall d | d in DepTasks(st.tasks[b.task])
      ensures Admits(st, b.task, d, b.deps[d])
    {
      assert DepPlaced(st.tasks, st.scopes, g, BASE, d, b.deps[d]);
    }
  }

  // In a closed run a task has a base instance exactly when each dependency has one that admits it.
  lemma BaseInstanceIff(st: State, t: TaskId)
    requires Reachable(st) && SyncClosed(st) && t in st.tasks
    ensures HasInScope(GraphOf(st.instances), t, BASE) <==> AllAdmit(st, t)
  {
    hide Reachable, Inv, SyncClosed, Admits, AllAdmit;
    ReachableOk(st);
    if i :| i in GraphOf(st.instances) && GraphOf(st.instances)[i].task == t && GraphOf(st.instances)[i].scope == BASE {
      InstanceIsAdmitted(st, i);
    }
    if AllAdmit(st, t) {
      var deps := Admitting(st, t);
      AdmittedIsCandidate(st, t, deps);
      BasePresent(st);
      CandidateHasInstance(st, t, BASE, deps);
    }
  }

  // ---------- what a controller's choice opens ----------

  // Everything t depends on, but for c, has its base instance.
  ghost predicate OthersInBase(st: State, t: TaskId, c: TaskId)
    requires t in st.tasks
  {
    forall d :: d in DepTasks(st.tasks[t]) && d != c ==> HasInScope(GraphOf(st.instances), d, BASE)
  }

  // A base instance of the controller c with a stored result.
  ghost predicate HasDecided(st: State, x: InstanceId, c: TaskId) {
    x in st.instances && st.instances[x].binding.scope == BASE && st.instances[x].binding.task == c &&
    c in st.tasks && x in st.results
  }

  // It emitted the label of this route, which leads to t.
  ghost predicate TookRoute(st: State, x: InstanceId, c: TaskId, route: Route, t: TaskId) {
    HasDecided(st, x, c) && RouteTaken(st.tasks[c], st.results[x], route, t)
  }

  // It said stop.
  ghost predicate ToldToStop(st: State, x: InstanceId, c: TaskId) {
    HasDecided(st, x, c) && StopTaken(st.tasks[c], st.results[x])
  }

  // In a closed run the target of a route has a base instance exactly when a base instance of the controller
  // emitted the label of that route, alone or among others, and all else it depends on has one.
  lemma BranchTakenIff(st: State, c: TaskId, routes: seq<Route>, k: nat, t: TaskId)
    requires Reachable(st) && SyncClosed(st) && c in st.tasks && st.tasks[c].control == Some(RouteMode(routes))
    requires k < |routes| && t in routes[k].targets
    ensures t in st.tasks
    ensures HasInScope(GraphOf(st.instances), t, BASE) <==>
      OthersInBase(st, t, c) && exists x :: TookRoute(st, x, c, routes[k], t)
  {
    hide Reachable, Inv, SyncClosed, HasInScope, Selects, OthersInBase, TookRoute;
    ReachableOk(st);
    RouteTargetsMember(routes, t);
    OwnedTarget(st, c, t);
    ChosenIff(st, c, t);
    forall x
      ensures ChoosesInBase(st, x, c, t) <==> TookRoute(st, x, c, routes[k], t)
    {
      RouteChoice(st, x, c, routes, k, t);
    }
  }

  // The same of a stop target and a controller that says stop.
  lemma StopTakenIff(st: State, c: TaskId, continues: seq<TaskId>, stops: seq<TaskId>, t: TaskId)
    requires Reachable(st) && SyncClosed(st) && c in st.tasks && st.tasks[c].control == Some(LoopMode(continues, stops))
    requires t in stops
    ensures t in st.tasks
    ensures HasInScope(GraphOf(st.instances), t, BASE) <==>
      OthersInBase(st, t, c) && exists x :: ToldToStop(st, x, c)
  {
    hide Reachable, Inv, SyncClosed, HasInScope, Selects, OthersInBase, ToldToStop;
    ReachableOk(st);
    OwnedTarget(st, c, t);
    ChosenIff(st, c, t);
    forall x
      ensures ChoosesInBase(st, x, c, t) <==> ToldToStop(st, x, c)
    {
      StopChoice(st, x, c, t);
    }
  }

  ghost predicate ChoosesInBase(st: State, x: InstanceId, c: TaskId, t: TaskId) {
    x in st.instances && st.instances[x].binding.scope == BASE && st.instances[x].binding.task == c &&
    Selects(st.tasks, GraphOf(st.instances), st.results, x, t)
  }

  lemma OwnedTarget(st: State, c: TaskId, t: TaskId)
    requires Inv(st) && c in st.tasks && Owns(st.tasks[c], t)
    ensures ControlOwner(st.tasks, t) == Some(c) && t in st.tasks && c in DepTasks(st.tasks[t])
    ensures NoDuplicates(ControlTargets(st.tasks[c]))
  {
    hide WellFormed, ScopesOk, ControlOk, InstancesOk, StoreOk, Acyclic, IsAncestor;
    OwnerUnique(st.tasks, c, t);
    OwnedAreTargets(st.tasks[c], t);
    assert ControllerOk(st.tasks, c) && TargetOk(st.tasks, c, t);
  }

  lemma ChosenIff(st: State, c: TaskId, t: TaskId)
    requires Reachable(st) && SyncClosed(st) && t in st.tasks
    requires ControlOwner(st.tasks, t) == Some(c) && c in DepTasks(st.tasks[t])
    ensures HasInScope(GraphOf(st.instances), t, BASE) <==>
      OthersInBase(st, t, c) && exists x :: ChoosesInBase(st, x, c, t)
  {
    hide Reachable, SyncClosed, Selects;
    BaseInstanceIff(st, t);
    if AllAdmit(st, t) {
      var x :| Admits(st, t, c, x);
      assert ChoosesInBase(st, x, c, t);
      forall d | d in DepTasks(st.tasks[t]) && d != c
        ensures HasInScope(GraphOf(st.instances), d, BASE)
      {
        var y :| Admits(st, t, d, y);
      }
    }
    if OthersInBase(st, t, c) && exists x :: ChoosesInBase(st, x, c, t) {
      var x :| ChoosesInBase(st, x, c, t);
      assert Admits(st, t, c, x);
      forall d | d in DepTasks(st.tasks[t])
        ensures exists y :: Admits(st, t, d, y)
      {
        if d != c {
          assert HasInScope(GraphOf(st.instances), d, BASE);
          var y :| y in GraphOf(st.instances) && GraphOf(st.instances)[y].task == d &&
            GraphOf(st.instances)[y].scope == BASE;
          assert Admits(st, t, d, y);
        }
      }
    }
  }

  lemma RouteChoice(st: State, x: InstanceId, c: TaskId, routes: seq<Route>, k: nat, t: TaskId)
    requires c in st.tasks && st.tasks[c].control == Some(RouteMode(routes)) && k < |routes| && t in routes[k].targets
    requires NoDuplicates(ControlTargets(st.tasks[c]))
    ensures ChoosesInBase(st, x, c, t) <==> TookRoute(st, x, c, routes[k], t)
  {
    hide ControlFor, NoDuplicates;
    if HasDecided(st, x, c) {
      AcceptedIff(st.tasks[c], st.results[x]);
      forall j | 0 <= j < |routes| && t in routes[j].targets
        ensures j == k
      {
        RouteOfTarget(routes, t, if j < k then j else k, if j < k then k else j);
      }
    }
  }

  lemma StopChoice(st: State, x: InstanceId, c: TaskId, t: TaskId)
    requires c in st.tasks && st.tasks[c].control.Some? && st.tasks[c].control.value.LoopMode?
    requires t in st.tasks[c].control.value.stopTargets
    ensures ChoosesInBase(st, x, c, t) <==> ToldToStop(st, x, c)
  {
    hide ControlFor;
    if HasDecided(st, x, c) {
      AcceptedIff(st.tasks[c], st.results[x]);
    }
  }

  // In a closed run an instance of a loop controller has its next scope exactly if it is done and said continue.
  lemma ContinueOpensIff(st: State, x: InstanceId)
    requires Reachable(st) && SyncClosed(st) && x in st.instances
    requires st.instances[x].binding.task in st.tasks && st.tasks[st.instances[x].binding.task].control.Some?
    requires st.tasks[st.instances[x].binding.task].control.value.LoopMode?
    ensures OwnsScope(st.scopes, x) <==>
      x in st.results && ContinueTaken(st.tasks[st.instances[x].binding.task], st.results[x])
  {
    hide Reachable, ControlFor, AllSynced, Inv;
    if OwnsScope(st.scopes, x) {
      BaseHasNoCreator(st);
      var s :| s in st.scopes && st.scopes[s].creator == Some(x);
      var x', parent, task, control := ScopeInputs(st, s);
    }
    assert !MayOpenScope(st, x);
    ResultsOfDoneOnly(st, x);
    if x in st.results {
      AcceptedIff(st.tasks[st.instances[x].binding.task], st.results[x]);
    }
  }

  // The stored result of x chose t: by the label of a route that leads there, or by a stop.
  ghost predicate Chose(st: State, x: InstanceId, c: TaskId, t: TaskId) {
    c in st.tasks && x in st.results &&
    match st.tasks[c].control
    case None => false
    case Some(RouteMode(routes)) => exists k :: RouteAt(st, x, c, routes, k, t)
    case Some(LoopMode(_, stops)) => t in stops && StopTaken(st.tasks[c], st.results[x])
  }

  // Instance x can serve a new instance of t in scope s as its dependency d: an instance of that scope, which
  // chose t if d controls t; or, if the scope has none, a base instance of an ancestor of a seed.
  ghost predicate CanServe(st: State, t: TaskId, s: ScopeId, d: TaskId, x: InstanceId)
    requires s in st.scopes
  {
    x in st.instances && st.instances[x].binding.task == d &&
    if st.instances[x].binding.scope == s then d in st.tasks && Owns(st.tasks[d], t) ==> Chose(st, x, d, t)
    else
      !(d in st.tasks && Owns(st.tasks[d], t)) && st.instances[x].binding.scope == BASE &&
      !HasInScope(GraphOf(st.instances), d, s) &&
      exists seed :: seed in st.scopes[s].seeds && IsAncestor(st.tasks, d, seed)
  }

  // The lineages of these instances agree.
  ghost predicate Agree(st: State, deps: map<TaskId, InstanceId>) {
    forall d, e, x, y {:trigger OfOneTask(st, deps, d, e, x, y)} :: OfOneTask(st, deps, d, e, x, y) ==> x == y
  }

  ghost predicate OfOneTask(st: State, deps: map<TaskId, InstanceId>, d: TaskId, e: TaskId, x: InstanceId,
                            y: InstanceId) {
    d in deps && e in deps && x in st.instances && y in st.instances &&
    st.instances[x].binding.task == st.instances[y].binding.task &&
    InLineage(st, deps[d], st.instances[x].binding.task, x) && InLineage(st, deps[e], st.instances[y].binding.task, y)
  }

  // In a closed run, whatever instances can serve a task in a scope and agree on what is upstream, the task
  // has its instance there bound to them, if it is a seed or hangs on the scope.
  lemma ServedIsInstantiated(st: State, t: TaskId, s: ScopeId, deps: map<TaskId, InstanceId>)
      returns (i: InstanceId)
    requires Reachable(st) && SyncClosed(st) && t in st.tasks && s in st.scopes && deps.Keys == DepTasks(st.tasks[t])
    requires (forall d :: d in deps ==> CanServe(st, t, s, d, deps[d])) && Agree(st, deps)
    requires s == BASE || t in st.scopes[s].seeds ||
      exists d :: d in deps && deps[d] in st.instances && st.instances[deps[d]].binding.scope == s
    ensures i in st.instances && st.instances[i].binding.task == t && st.instances[i].binding.scope == s
    ensures st.instances[i].binding.deps == deps
  {
    hide Reachable, Inv, SyncClosed, CanServe, Agree, InstancesOk, StoreOk, ControlOk, ValidTasks, ScopesOk,
      Typed, AllPlaced, KeysUnique, WellFormed, HasInScope, Upstream;
    ReachableOk(st);
    InvParts(st);
    GraphParts(st);
    forall d | d in deps
      ensures MayFill(st.tasks, st.scopes, GraphOf(st.instances), st.results, t, s, d, deps[d])
    {
      ServesFills(st, t, s, d, deps[d]);
    }
    AgreeCoherent(st, deps);
    i := CandidateInstance(st, t, s, deps);
  }

  lemma AgreeCoherent(st: State, deps: map<TaskId, InstanceId>)
    requires Closed(GraphOf(st.instances)) && DepsIn(GraphOf(st.instances), deps) && Agree(st, deps)
    ensures Coherent(GraphOf(st.instances), UpstreamOf(GraphOf(st.instances), deps))
  {
    hide Upstream;
    var g := GraphOf(st.instances);
    forall x, y | x in UpstreamOf(g, deps) && y in UpstreamOf(g, deps) && SameTask(g, x, y)
      ensures x == y
    {
      var d :| d in deps && x in Upstream(g, deps[d]);
      var e :| e in deps && y in Upstream(g, deps[e]);
      assert OfOneTask(st, deps, d, e, x, y);
    }
  }

  lemma ServesFills(st: State, t: TaskId, s: ScopeId, d: TaskId, x: InstanceId)
    requires Inv(st) && s in st.scopes && CanServe(st, t, s, d, x)
    ensures MayFill(st.tasks, st.scopes, GraphOf(st.instances), st.results, t, s, d, x)
  {
    hide Inv, InstancesOk, StoreOk, WellFormed, ControlFor, IsAncestor, Acyclic, ControlOk, GraphOk, Chose, Selects;
    InvParts(st);
    BasePresent(st);
    BaseHasNoSeeds(st);
    var g := GraphOf(st.instances);
    assert g[x] == st.instances[x].binding;
    assert g[x].scope == s ==> HasInScope(g, d, s);
    if d in st.tasks && Owns(st.tasks[d], t) {
      OwnerUnique(st.tasks, d, t);
      ChoseSelects(st, x, d, t);
    }
  }

  lemma BaseHasNoSeeds(st: State)
    requires Inv(st)
    ensures BASE in st.scopes && st.scopes[BASE].seeds == []
  {
    hide InstancesOk, StoreOk, WellFormed, ControlOk, ValidTasks;
  }

  lemma ChoseSelects(st: State, x: InstanceId, c: TaskId, t: TaskId)
    requires x in st.instances && st.instances[x].binding.task == c && Chose(st, x, c, t)
    ensures Selects(st.tasks, GraphOf(st.instances), st.results, x, t)
  {
    hide ControlFor;
    AcceptedIff(st.tasks[c], st.results[x]);
  }

  // ---------- tasks that no controller decides about ----------

  // Neither the task nor any ancestor of it hangs on a controller's choice.
  ghost predicate Uncontrolled(tasks: Tasks, t: TaskId) {
    ControlOwner(tasks, t).None? && forall a :: IsAncestor(tasks, a, t) ==> ControlOwner(tasks, a).None?
  }

  lemma {:induction false} UncontrolledPresent(st: State, rank: map<TaskId, nat>, t: TaskId)
    requires Reachable(st) && SyncClosed(st) && t in st.tasks && Uncontrolled(st.tasks, t)
    requires DepsExist(st.tasks) && Ranks(DependsMap(st.tasks), rank)
    ensures HasInScope(GraphOf(st.instances), t, BASE)
    decreases rank[t]
  {
    hide Reachable, SyncClosed, IsAncestor;
    forall d | d in DepTasks(st.tasks[t])
      ensures exists x :: Admits(st, t, d, x)
    {
      assert d in DependsMap(st.tasks)[t];
      DependencyIsAncestor(st.tasks, d, t);
      forall a | IsAncestor(st.tasks, a, d)
        ensures ControlOwner(st.tasks, a).None?
      {
        AncestorTransitive(st.tasks, a, d, t);
      }
      UncontrolledPresent(st, rank, d);
      var x :| x in GraphOf(st.instances) && GraphOf(st.instances)[x].task == d &&
        GraphOf(st.instances)[x].scope == BASE;
      assert Admits(st, t, d, x);
    }
    BaseInstanceIff(st, t);
  }

  // So every uncontrolled task has its base instance.
  lemma UncontrolledAllPresent(st: State, t: TaskId)
    requires Reachable(st) && SyncClosed(st) && t in st.tasks && Uncontrolled(st.tasks, t)
    ensures HasInScope(GraphOf(st.instances), t, BASE)
  {
    hide Reachable, Inv, SyncClosed, Uncontrolled, HasInScope;
    ReachableOk(st);
    var rank := RankOf(st);
    UncontrolledPresent(st, rank, t);
  }

  // ---------- iterations ----------

  // The seeds of s, and that nothing they depend on is instantiated in s.
  lemma SeedFacts(st: State, s: ScopeId, t: TaskId, d: TaskId)
    requires Inv(st) && s in st.scopes && s != BASE && t in st.scopes[s].seeds && AntichainSeeds(st.tasks)
    requires t in st.tasks ==> d in DepTasks(st.tasks[t])
    ensures t in st.tasks && ControlOwner(st.tasks, t).None? && d in st.tasks
    ensures CanReuseBase(st.tasks, st.scopes, s, d) && !HasInScope(GraphOf(st.instances), d, s)
  {
    hide Inv, InstancesOk, StoreOk, ControlOk, GraphOk, AntichainSeeds, RoutesOk, KeysUnique, WellFormed, IsAncestor;
    InvParts(st);
    GraphParts(st);
    var g := GraphOf(st.instances);
    assert ScopeOk(st.tasks, st.scopes, g, s);
    hide ScopesOk, ScopeOk;
    var c := SeedOf(st, s, t);
    SeedUncontrolled(st.tasks, c, t);
    DependencyIsAncestor(st.tasks, d, t);
    assert CanReuseBase(st.tasks, st.scopes, s, d);
    if x :| x in g && g[x].task == d && g[x].scope == s {
      SeedAncestorStaysInBase(st.tasks, st.scopes, g, x);
    }
  }

  // The controller whose continue targets are the seeds of s; its instance lies in the parent scope.
  lemma SeedOf(st: State, s: ScopeId, t: TaskId) returns (c: TaskId)
    requires ScopesOk(st.tasks, st.scopes, GraphOf(st.instances)) && ValidTasks(st.tasks)
    requires s in st.scopes && s != BASE && t in st.scopes[s].seeds
    ensures c in st.tasks && t in ContinueTargets(st.tasks[c]) && t in st.tasks && IsAncestor(st.tasks, t, c)
    ensures
      var creator := st.scopes[s].creator;
      creator.Some? && creator.value in st.instances && st.instances[creator.value].binding.task == c &&
      st.scopes[s].parent == Some(st.instances[creator.value].binding.scope)
  {
    hide IsAncestor;
    var g := GraphOf(st.instances);
    assert ScopeOk(st.tasks, st.scopes, g, s);
    c := g[st.scopes[s].creator.value].task;
    OwnedAreTargets(st.tasks[c], t);
    assert ControllerOk(st.tasks, c) && TargetOk(st.tasks, c, t);
  }

  ghost predicate BaseCovers(st: State, t: TaskId)
    requires t in st.tasks
  {
    forall d :: d in DepTasks(st.tasks[t]) ==> HasInScope(GraphOf(st.instances), d, BASE)
  }

  // In a closed run with antichain seeds, a seed is instantiated in its scope exactly when the base
  // scope has what the seed depends on.
  lemma SeedInstanceIff(st: State, s: ScopeId, t: TaskId)
    requires Reachable(st) && SyncClosed(st) && AntichainSeeds(st.tasks)
    requires s in st.scopes && s != BASE && t in st.scopes[s].seeds && t in st.tasks
    ensures HasInScope(GraphOf(st.instances), t, s) <==> BaseCovers(st, t)
  {
    hide Reachable, Inv, SyncClosed, AntichainSeeds, HasInScope;
    ReachableOk(st);
    if HasInScope(GraphOf(st.instances), t, s) {
      SeedDependsOnBase(st, s, t);
    }
    if BaseCovers(st, t) {
      forall d | d in DepTasks(st.tasks[t])
        ensures !HasInScope(GraphOf(st.instances), d, s)
      {
        SeedFacts(st, s, t, d);
      }
      var deps := SeedBinding(st, s, t);
      CandidateHasInstance(st, t, s, deps);
    }
  }

  lemma SeedDependsOnBase(st: State, s: ScopeId, t: TaskId)
    requires Inv(st) && AntichainSeeds(st.tasks) && HasInScope(GraphOf(st.instances), t, s)
    requires s in st.scopes && s != BASE && t in st.scopes[s].seeds && t in st.tasks
    ensures BaseCovers(st, t)
  {
    hide Inv, InstancesOk, StoreOk, ControlOk, GraphOk, AntichainSeeds, RoutesOk, KeysUnique, WellFormed, ScopesOk,
      CanReuseBase;
    InvParts(st);
    GraphParts(st);
    var g := GraphOf(st.instances);
    var i :| i in g && g[i].task == t && g[i].scope == s;
    assert BindingTyped(st.tasks, g, g[i]) && BindingPlaced(st.tasks, st.scopes, g, g[i]);
    forall d | d in DepTasks(st.tasks[t])
      ensures HasInScope(g, d, BASE)
    {
      SeedFacts(st, s, t, d);
      var y := g[i].deps[d];
      assert DepPlaced(st.tasks, st.scopes, g, s, d, y) && g[y].task == d;
    }
  }

  lemma SeedTask(st: State, s: ScopeId, t: TaskId)
    requires Inv(st) && s in st.scopes && s != BASE && t in st.scopes[s].seeds
    ensures t in st.tasks && ControlOwner(st.tasks, t).None?
  {
    hide Inv, WellFormed, ControlOk, InstancesOk, StoreOk, GraphOk, RoutesOk, ScopesOk, IsAncestor;
    InvParts(st);
    var c := SeedOf(st, s, t);
    SeedUncontrolled(st.tasks, c, t);
  }

  // While nothing that t depends on is instantiated in s, t can be bound to the base scope.
  lemma SeedBinding(st: State, s: ScopeId, t: TaskId) returns (deps: map<TaskId, InstanceId>)
    requires Inv(st) && s in st.scopes && s != BASE && t in st.scopes[s].seeds && t in st.tasks && BaseCovers(st, t)
    requires forall d :: d in DepTasks(st.tasks[t]) ==> !HasInScope(GraphOf(st.instances), d, s)
    ensures Closed(GraphOf(st.instances))
    ensures IsCandidate(st.tasks, st.scopes, GraphOf(st.instances), st.results, t, s, deps)
    ensures forall d :: d in deps ==> InBase(GraphOf(st.instances), deps[d])
  {
    hide Inv, InstancesOk, StoreOk, ControlOk, GraphOk, ValidTasks, ScopesOk, KeysUnique, WellFormed, CanReuseBase,
      Typed, AllPlaced, Coherent, ControlOwner, Selects;
    InvParts(st);
    GraphParts(st);
    var g := GraphOf(st.instances);
    SeedTask(st, s, t);
    forall d | d in DepTasks(st.tasks[t])
      ensures exists x :: InBase(g, x) && g[x].task == d
    {
      assert HasInScope(g, d, BASE);
      var x :| x in g && g[x].task == d && g[x].scope == BASE;
      assert InBase(g, x);
    }
    deps := map d | d in DepTasks(st.tasks[t]) :: (var x :| InBase(g, x) && g[x].task == d; x);
    BaseDepsCoherent(st.tasks, st.scopes, g, deps);
    forall d | d in deps
      ensures MayFill(st.tasks, st.scopes, g, st.results, t, s, d, deps[d])
    {
      SeedDepReusable(st, s, t, d);
    }
  }

  lemma SeedDepReusable(st: State, s: ScopeId, t: TaskId, d: TaskId)
    requires DepsExist(st.tasks) && s in st.scopes && t in st.scopes[s].seeds && t in st.tasks
    requires d in DepTasks(st.tasks[t])
    ensures d in st.tasks && CanReuseBase(st.tasks, st.scopes, s, d)
  {
    hide IsAncestor;
    DependencyIsAncestor(st.tasks, d, t);
  }

  // The iteration continues the loop that opened its parent, or its controller ran in the base scope.
  ghost predicate GoesOn(st: State, s: ScopeId, t: TaskId) {
    s in st.scopes && st.scopes[s].parent.Some? &&
    (st.scopes[s].parent == Some(BASE) ||
     (st.scopes[s].parent.value in st.scopes && t in st.scopes[st.scopes[s].parent.value].seeds))
  }

  // Every iteration of a loop starts, the first and all that continue it: each seed has an instance in it.
  lemma IterationStarts(st: State, s: ScopeId, t: TaskId)
    requires Reachable(st) && SyncClosed(st) && AntichainSeeds(st.tasks)
    requires s in st.scopes && t in st.scopes[s].seeds && GoesOn(st, s, t)
    ensures HasInScope(GraphOf(st.instances), t, s)
  {
    ReachableOk(st);
    hide Reachable, Inv, SyncClosed, InstancesOk, StoreOk, ControlOk, GraphOk, AntichainSeeds, WellFormed, IsAncestor,
      HasInScope, BaseCovers;
    InvParts(st);
    var c := SeedOf(st, s, t);
    hide ScopesOk, ValidTasks;
    var p := st.scopes[s].parent.value;
    var y := AncestorInstance(st, st.scopes[s].creator.value, t);
    if st.instances[y].binding.scope == BASE {
      BaseInstanceCovers(st, y);
    } else {
      InstancePresent(st, y);
      SeedInstanceIff(st, p, t);
    }
    SeedInstanceIff(st, s, t);
  }

  lemma InstancePresent(st: State, y: InstanceId)
    requires y in st.instances
    ensures HasInScope(GraphOf(st.instances), st.instances[y].binding.task, st.instances[y].binding.scope)
  {
    assert GraphOf(st.instances)[y] == st.instances[y].binding;
  }

  // The instance of an ancestor in the lineage of x lies in the scope of x or in the base scope.
  lemma AncestorInstance(st: State, x: InstanceId, t: TaskId) returns (y: InstanceId)
    requires GraphOk(st) && x in st.instances && IsAncestor(st.tasks, t, st.instances[x].binding.task) && t in st.tasks
    ensures y in st.instances && st.instances[y].binding.task == t
    ensures st.instances[y].binding.scope == st.instances[x].binding.scope || st.instances[y].binding.scope == BASE
  {
    hide GraphOk, IsAncestor, AllPlaced, CanReuseBase, KeysUnique;
    GraphParts(st);
    var g := GraphOf(st.instances);
    LineageTasks(st.tasks, g, x);
    assert t in TasksOf(g, Upstream(g, x));
    y :| y in Upstream(g, x) && y in g && g[y].task == t;
    ScopeIsolation(st.tasks, st.scopes, g, x, y);
  }

  lemma BaseInstanceCovers(st: State, y: InstanceId)
    requires GraphOk(st) && y in st.instances && st.instances[y].binding.scope == BASE
    ensures st.instances[y].binding.task in st.tasks && BaseCovers(st, st.instances[y].binding.task)
  {
    hide GraphOk, CanReuseBase, KeysUnique;
    GraphParts(st);
    var g := GraphOf(st.instances);
    assert BindingTyped(st.tasks, g, g[y]) && BindingPlaced(st.tasks, st.scopes, g, g[y]);
    forall d | d in DepTasks(st.tasks[g[y].task])
      ensures HasInScope(g, d, BASE)
    {
      assert DepPlaced(st.tasks, st.scopes, g, BASE, d, g[y].deps[d]);
    }
  }

  // ---------- iterations that do not start ----------

  // The seed t depends on b, and the controller of b did not choose b in the base scope.
  ghost predicate Starved(st: State, t: TaskId, b: TaskId, x: InstanceId) {
    t in st.tasks && b in DepTasks(st.tasks[t]) && InBase(GraphOf(st.instances), x) && x in st.instances &&
    st.instances[x].status == Done && ControlOwner(st.tasks, b) == Some(st.instances[x].binding.task) &&
    !Selects(st.tasks, GraphOf(st.instances), st.results, x, b)
  }

  // Such a seed is instantiated in no iteration, now and along every later run.
  lemma StarvedNeverStarts(st: State, actions: seq<Action>, st': State, t: TaskId, b: TaskId, x: InstanceId, s: ScopeId)
    requires Reachable(st) && IsRun(st, actions, st') && AntichainSeeds(st.tasks) && Starved(st, t, b, x)
    requires s in st'.scopes && s != BASE && t in st'.scopes[s].seeds
    ensures !HasInScope(GraphOf(st'.instances), t, s)
  {
    hide Reachable, Inv, IsRun, AntichainSeeds, HasInScope, Evolves;
    ReachableOk(st);
    RunKeeps(st, actions, st');
    ReachableRun(st, actions, st');
    ReachableOk(st');
    StarvedStays(st, st', t, b, x);
    if HasInScope(GraphOf(st'.instances), t, s) {
      SeedDependsOnBase(st', s, t);
      StarvedUncovered(st', t, b, x);
    }
  }

  lemma StarvedStays(st: State, st': State, t: TaskId, b: TaskId, x: InstanceId)
    requires Evolves(st, st') && Starved(st, t, b, x)
    ensures st'.tasks == st.tasks && Starved(st', t, b, x)
  {
    ControlSurvives(st, st', x);
    assert DoneKept(st, st', x);
    assert GraphOf(st.instances)[x] == GraphOf(st'.instances)[x];
  }

  lemma StarvedUncovered(st: State, t: TaskId, b: TaskId, x: InstanceId)
    requires Inv(st) && Starved(st, t, b, x)
    ensures !HasInScope(GraphOf(st.instances), b, BASE)
  {
    hide Inv, GraphOk, InstancesOk, StoreOk, Selects, ControlOk, WellFormed, RoutesOk, ScopesOk;
    InvParts(st);
    GraphParts(st);
    var g := GraphOf(st.instances);
    if y :| y in g && g[y].task == b && g[y].scope == BASE {
      InstanceIsAdmitted(st, y);
      var c := st.instances[x].binding.task;
      OwnedDependsOnOwner(st, y, c);
      var z :| Admits(st, b, c, z);
      AtMostOneInBase(st.tasks, st.scopes, g, x, z);
    }
  }

  lemma OwnedDependsOnOwner(st: State, y: InstanceId, c: TaskId)
    requires ValidTasks(st.tasks) && y in st.instances && st.instances[y].binding.task in st.tasks
    requires ControlOwner(st.tasks, st.instances[y].binding.task) == Some(c)
    ensures c in DepTasks(st.tasks[st.instances[y].binding.task])
  {
    hide Acyclic;
    OwnerIsDependency(st.tasks, st.instances[y].binding.task);
  }
}
