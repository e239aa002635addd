// What holds in every reachable state and along every run.
module RunTheorems {
  import opened Domain
  import opened TaskGraph
  import opened InstanceGraph
  import opened Iterations
  import opened ControlEnvelope
  import opened BindingTrees
  import opened RunState
  import opened Invariants
  import opened Preservation

  ghost predicate Reachable(st: State) {
    exists start, actions :: StartsRun(start) && IsRun(start, actions, st)
  }

  ghost predicate StartsRun(st: State) {
    ValidTasks(st.tasks) && st == Initial(st.tasks, st.userInputs)
  }

  lemma ReachableOk(st: State)
    requires Reachable(st)
    ensures Inv(st)
  {
    hide ValidTasks, Inv, Evolves, Initial, IsRun;
    var start, actions :| StartsRun(start) && IsRun(start, actions, st);
    InitialOk(start.tasks, start.userInputs);
    RunKeeps(start, actions, st);
  }

  // What a step reaches from a reachable state is reachable.
  lemma ReachableStep(st: State, a: Action, st': State)
    requires Reachable(st) && Stepped(st, a, st')
    ensures Reachable(st')
  {
    hide StartsRun, IsRun, Enabled, Next;
    var start, actions :| StartsRun(start) && IsRun(start, actions, st);
    RunAppend(start, actions, st, a);
  }

  lemma ReachableRun(st: State, actions: seq<Action>, st': State)
    requires Reachable(st) && IsRun(st, actions, st')
    ensures Reachable(st')
  {
    hide StartsRun, IsRun;
    var start, first :| StartsRun(start) && IsRun(start, first, st);
    RunJoin(start, first, st, actions, st');
  }

  lemma InvParts(st: State)
    requires Inv(st)
    ensures GraphOk(st) && ControlOk(st) && InstancesOk(st) && StoreOk(st)
    ensures ValidTasks(st.tasks) && WellFormed(st.tasks, st.scopes, GraphOf(st.instances))
    ensures ScopesOk(st.tasks, st.scopes, GraphOf(st.instances))
  {
    hide ValidTasks, WellFormed, ScopesOk, ControlOk, InstancesOk, StoreOk;
  }

  lemma GraphParts(st: State)
    requires GraphOk(st)
    ensures Typed(st.tasks, GraphOf(st.instances)) && AllPlaced(st.tasks, st.scopes, GraphOf(st.instances))
    ensures KeysUnique(GraphOf(st.instances))
    ensures DepsExist(st.tasks) && Closed(GraphOf(st.instances))
  {
    hide ActivationOk, Coherent, RoutesOk, ScopesOk;
    assert forall i :: i in GraphOf(st.instances) ==>
      BindingOk(st.tasks, st.scopes, GraphOf(st.instances), GraphOf(st.instances)[i]);
  }

  lemma BasePresent(st: State)
    requires Inv(st)
    ensures BASE in st.scopes
  {
    hide WellFormed, ValidTasks, ControlOk, InstancesOk, StoreOk;
  }

  // ---------- the graph of every reachable run ----------

  // x is the instance of t in the lineage of i.
  ghost predicate InLineage(st: State, i: InstanceId, t: TaskId, x: InstanceId) {
    var g := GraphOf(st.instances);
    Closed(g) && i in g && x in g && x in Upstream(g, i) && g[x].task == t
  }

  // A lineage has instances of exactly the task and its ancestors...
  lemma LineageCovers(st: State, i: InstanceId, t: TaskId)
    requires Reachable(st) && i in st.instances
    ensures (exists x :: InLineage(st, i, t, x)) <==>
      t == st.instances[i].binding.task || t in Ancestors(st.tasks, st.instances[i].binding.task)
  {
    hide Reachable, Inv, GraphOk, WellFormed, ValidTasks, Ancestors, Coherent, Upstream, TasksOf, InLineage, Typed,
      AllPlaced, KeysUnique, ScopesOk;
    ReachableOk(st);
    InvParts(st);
    GraphParts(st);
    var g := GraphOf(st.instances);
    LineageIsCut(st.tasks, st.scopes, g, i);
    LineageMember(st, i, t);
  }

  lemma LineageMember(st: State, i: InstanceId, t: TaskId)
    requires Closed(GraphOf(st.instances)) && i in st.instances
    ensures (exists x :: InLineage(st, i, t, x)) <==>
      t in TasksOf(GraphOf(st.instances), Upstream(GraphOf(st.instances), i))
  {
    hide Upstream;
    var g := GraphOf(st.instances);
    if t in TasksOf(g, Upstream(g, i)) {
      var x :| x in Upstream(g, i) && x in g && g[x].task == t;
      assert InLineage(st, i, t, x);
    }
  }

  // ...and one of each: it is a function from tasks to instances.
  lemma LineageUnique(st: State, i: InstanceId, t: TaskId, x: InstanceId, y: InstanceId)
    requires Reachable(st) && InLineage(st, i, t, x) && InLineage(st, i, t, y)
    ensures x == y
  {
    hide Reachable, Inv, GraphOk, WellFormed, ValidTasks, Ancestors, TasksOf, Upstream;
    ReachableOk(st);
    InvParts(st);
    LineageIsCut(st.tasks, st.scopes, GraphOf(st.instances), i);
    assert SameTask(GraphOf(st.instances), x, y);
  }

  // Two upstream instances that depend on d are bound to the same instance of it.
  lemma DiamondsShare(st: State, i: InstanceId, x: InstanceId, y: InstanceId, d: TaskId)
    requires Reachable(st) && x in st.instances && y in st.instances
    requires InLineage(st, i, st.instances[x].binding.task, x) && InLineage(st, i, st.instances[y].binding.task, y)
    requires d in st.instances[x].binding.deps && d in st.instances[y].binding.deps
    ensures st.instances[x].binding.deps[d] == st.instances[y].binding.deps[d]
  {
    hide Reachable, Inv, GraphOk, WellFormed, ValidTasks, Upstream;
    ReachableOk(st);
    InvParts(st);
    DiamondsMeet(st.tasks, st.scopes, GraphOf(st.instances), i, x, y, d);
  }

  // The activation bindings of an instance are its lineage at the controllers that own a task of it.
  lemma ActivationIsLineage(st: State, i: InstanceId, c: TaskId)
    requires Reachable(st) && i in st.instances
    ensures Closed(GraphOf(st.instances))
    ensures c in st.instances[i].binding.activation <==>
      OwnsOneOf(st.tasks, {st.instances[i].binding.task} + Ancestors(st.tasks, st.instances[i].binding.task), c)
    ensures c in st.instances[i].binding.activation ==>
      InLineage(st, i, c, st.instances[i].binding.activation[c])
  {
    hide Reachable, Inv, ValidTasks, Ancestors, OwnsOneOf, KeysUnique, ScopesOk, BindingPlaced, BindingTyped, Coherent,
      UpstreamOf, Upstream;
    ReachableOk(st);
    InvParts(st);
    GraphParts(st);
    var g := GraphOf(st.instances);
    var b := g[i];
    assert BindingOk(st.tasks, st.scopes, g, b);
    UpstreamTasks(st.tasks, g, i, b);
    assert TasksAbove(g, b.task, b.deps) == {b.task} + Ancestors(st.tasks, b.task);
    UpstreamParts(g, i);
  }

  lemma UpstreamParts(g: Graph, i: InstanceId)
    requires Closed(g) && i in g
    ensures Upstream(g, i) == {i} + UpstreamOf(g, g[i].deps)
  {
  }

  // A path of dependencies from i, inside the scope of i, to an instance of a seed of that scope.
  ghost predicate SeedPath(st: State, i: InstanceId, p: seq<InstanceId>)
    requires i in st.instances
  {
    var g, s := GraphOf(st.instances), st.instances[i].binding.scope;
    |p| >= 1 && p[0] == i && ScopedPath(g, p, s) && s in st.scopes && g[p[|p| - 1]].task in st.scopes[s].seeds
  }

  // From scope s one sees s, and the base scope for ancestors of the seeds of s only; and outside the
  // base scope everything hangs on a seed through instances of its own scope.
  lemma IterationsIsolated(st: State, i: InstanceId, x: InstanceId)
    requires Reachable(st) && i in st.instances && x in st.instances
    requires InLineage(st, i, st.instances[x].binding.task, x)
    ensures st.instances[i].binding.scope in st.scopes
    ensures Visible(st.tasks, st.scopes, GraphOf(st.instances), st.instances[i].binding.scope, x)
    ensures st.instances[i].binding.scope != BASE ==> exists p :: SeedPath(st, i, p)
  {
    hide Reachable, Inv, WellFormed, ValidTasks, KeysUnique, ScopesOk, Visible, Upstream;
    ReachableOk(st);
    InvParts(st);
    GraphParts(st);
    ScopeIsolation(st.tasks, st.scopes, GraphOf(st.instances), i, x);
    if st.instances[i].binding.scope != BASE {
      var p := DescendsFromSeed(st.tasks, st.scopes, GraphOf(st.instances), i);
      assert SeedPath(st, i, p);
    }
  }

  // At most one base instance for each task; with antichain seeds, or in a clean graph, at most one
  // in every scope.
  lemma InstancesUnique(st: State, i: InstanceId, j: InstanceId)
    requires Reachable(st) && i in st.instances && j in st.instances
    requires st.instances[i].binding.task == st.instances[j].binding.task
    requires st.instances[i].binding.scope == st.instances[j].binding.scope
    requires st.instances[i].binding.scope == BASE || AntichainSeeds(st.tasks) ||
      Clean(st.tasks, st.scopes, GraphOf(st.instances))
    ensures i == j
  {
    hide Reachable, Inv, WellFormed, ValidTasks, KeysUnique, ScopesOk, AntichainSeeds, AllPlaced, Typed, Clean;
    ReachableOk(st);
    InvParts(st);
    GraphParts(st);
    if st.instances[i].binding.scope == BASE {
      AtMostOneInBase(st.tasks, st.scopes, GraphOf(st.instances), i, j);
    } else {
      if AntichainSeeds(st.tasks) {
        AntichainClean(st.tasks, st.scopes, GraphOf(st.instances));
      }
      CleanUnique(st.tasks, st.scopes, GraphOf(st.instances), i, j);
    }
  }

  // ---------- dependency safety ----------

  // An instance that was ever ready to run has everything upstream done.
  lemma {:induction false} UpstreamDone(st: State, i: InstanceId, x: InstanceId)
    requires Typed(st.tasks, GraphOf(st.instances)) && InstancesOk(st) && i in st.instances
    requires st.instances[i].status != Pending && st.instances[i].status != Skipped
    requires x in Upstream(GraphOf(st.instances), i) && x != i
    ensures x in st.instances && st.instances[x].status == Done
    decreases i
  {
    var g := GraphOf(st.instances);
    var d :| d in g[i].deps && x in Upstream(g, g[i].deps[d]);
    var y := g[i].deps[d];
    DirectDependencyDone(st, i, d);
    if x != y {
      UpstreamDone(st, y, x);
    }
  }

  lemma DirectDependencyDone(st: State, i: InstanceId, d: TaskId)
    requires Typed(st.tasks, GraphOf(st.instances)) && InstancesOk(st) && i in st.instances
    requires d in st.instances[i].binding.deps
    requires st.instances[i].status != Pending && st.instances[i].status != Skipped
    ensures st.instances[i].binding.deps[d] in st.instances
    ensures st.instances[st.instances[i].binding.deps[d]].status == Done
  {
    var b := GraphOf(st.instances)[i];
    assert BindingTyped(st.tasks, GraphOf(st.instances), b) && InstanceOk(st, i);
    var k :| 0 <= k < |st.tasks[b.task].dependsOn| && st.tasks[b.task].dependsOn[k].task == d;
    assert DepSatisfied(st.instances, b.deps, st.tasks[b.task].dependsOn[k]);
  }

  // What i consumes of a dependency has been published by the instance it is bound to.
  ghost predicate HasConsumed(st: State, i: InstanceId, dep: Dependency, p: Path)
    requires i in st.instances
  {
    dep.task in st.instances[i].binding.deps && st.instances[i].binding.deps[dep.task] in st.instances &&
    p in st.instances[st.instances[i].binding.deps[dep.task]].published
  }

  ghost predicate IsConsumed(st: State, i: InstanceId, dep: Dependency, p: Path)
    requires i in st.instances && st.instances[i].binding.task in st.tasks
  {
    dep in st.tasks[st.instances[i].binding.task].dependsOn && dep.kind == Context && p in dep.consume
  }

  // In every reachable state, whatever crashes, recoveries, retries and aborts led to it.
  lemma DependencySafety(st: State, i: InstanceId)
    requires Reachable(st) && i in st.instances && st.instances[i].status != Pending
    requires st.instances[i].status != Skipped
    ensures Closed(GraphOf(st.instances))
    ensures forall x :: x in Upstream(GraphOf(st.instances), i) && x != i ==>
      x in st.instances && st.instances[x].status == Done
    ensures st.instances[i].binding.task in st.tasks
    ensures forall dep, p :: IsConsumed(st, i, dep, p) ==> HasConsumed(st, i, dep, p)
  {
    hide Reachable, Inv, GraphOk, ControlOk, StoreOk, InstancesOk, Upstream;
    ReachableOk(st);
    InvParts(st);
    GraphParts(st);
    forall x | x in Upstream(GraphOf(st.instances), i) && x != i
      ensures x in st.instances && st.instances[x].status == Done
    {
      UpstreamDone(st, i, x);
    }
    ConsumedPublished(st, i);
  }

  lemma ConsumedPublished(st: State, i: InstanceId)
    requires InstancesOk(st) && i in st.instances && st.instances[i].status != Pending
    requires st.instances[i].status != Skipped
    ensures st.instances[i].binding.task in st.tasks
    ensures forall dep, p :: IsConsumed(st, i, dep, p) ==> HasConsumed(st, i, dep, p)
  {
    assert InstanceOk(st, i);
    var b := st.instances[i].binding;
    forall dep, p | dep in st.tasks[b.task].dependsOn && dep.kind == Context && p in dep.consume
      ensures HasConsumed(st, i, dep, p)
    {
      var k :| 0 <= k < |st.tasks[b.task].dependsOn| && st.tasks[b.task].dependsOn[k] == dep;
      assert DepSatisfied(st.instances, b.deps, st.tasks[b.task].dependsOn[k]);
    }
  }

  // Done is for ever: the status, the files and the stored result never change again.
  lemma DoneIsFinal(st: State, actions: seq<Action>, st': State, i: InstanceId)
    requires Reachable(st) && IsRun(st, actions, st') && i in st.instances && st.instances[i].status == Done
    ensures i in st'.instances && st'.instances[i].status == Done
    ensures st'.instances[i].published == st.instances[i].published
    ensures StoredResult(st'.results, i) == StoredResult(st.results, i)
  {
    hide Reachable, Inv, IsRun;
    ReachableOk(st);
    RunKeeps(st, actions, st');
    assert DoneKept(st, st', i);
  }

  // Results are kept for done instances only, and the result kept for a controller has a readable control.
  lemma ResultsOfDoneOnly(st: State, i: InstanceId)
    requires Reachable(st) && i in st.instances
    ensures i in st.results ==> st.instances[i].status == Done
    ensures st.instances[i].binding.task in st.tasks
    ensures i in st.results && st.tasks[st.instances[i].binding.task].control.Some? ==>
      ControlOf(st.tasks, st.instances[i].binding.task, st.results, i).Some?
  {
    hide Reachable, GraphOk, ControlOk, StoreOk;
    ReachableOk(st);
    assert InstanceOk(st, i);
  }

  // ---------- decisions ----------

  // Interrupt n asks for r, blocks i and has its reply, in both states.
  ghost predicate SettledBoth(st: State, st': State, i: InstanceId, r: RequiredDecision, n: InterruptId) {
    n in st.interrupts && n in st.replies && Matches(st.interrupts[n], i, r) &&
    n in st'.interrupts && n in st'.replies && Matches(st'.interrupts[n], i, r)
  }

  // A done instance has each required decision: asked for, blocking, and answered, now and later.
  lemma DecisionsSettled(st: State, actions: seq<Action>, st': State, i: InstanceId, r: RequiredDecision)
    requires Reachable(st) && IsRun(st, actions, st') && i in st.instances && st.instances[i].status == Done
    requires st.instances[i].binding.task in st.tasks && r in st.tasks[st.instances[i].binding.task].requiredDecisions
    ensures exists n :: SettledBoth(st, st', i, r, n)
  {
    hide Reachable, GraphOk, ControlOk, IsRun;
    ReachableOk(st);
    RunKeeps(st, actions, st');
    assert InstanceOk(st, i) && DoneOk(st, i);
    var n :| n in st.interrupts && Matches(st.interrupts[n], i, r) && n in st.replies;
    assert InterruptKept(st.interrupts[n], st'.interrupts[n]);
    assert SettledBoth(st, st', i, r, n);
  }

  // An interrupt that has been answered is never open again.
  lemma AnsweredStaysAnswered(st: State, actions: seq<Action>, st': State, n: InterruptId)
    requires Reachable(st) && IsRun(st, actions, st') && n in st.interrupts && st.interrupts[n].status != Open
    ensures n in st'.interrupts && st'.interrupts[n].status != Open && n in st'.replies
  {
    hide Reachable, GraphOk, ControlOk, IsRun;
    ReachableOk(st);
    RunKeeps(st, actions, st');
    assert InterruptKept(st.interrupts[n], st'.interrupts[n]);
  }

  // ---------- branches ----------

  // A controlled instance is bound, in its own scope, to a done controller instance that chose it,
  // and that choice stands along every later run.
  lemma BranchChosen(st: State, actions: seq<Action>, st': State, i: InstanceId, c: TaskId)
    requires Reachable(st) && IsRun(st, actions, st') && i in st.instances
    requires c in st.tasks && Owns(st.tasks[c], st.instances[i].binding.task)
    ensures c in st'.tasks
    ensures c in st.instances[i].binding.deps && st.instances[i].binding.deps[c] in st.instances
    ensures st.instances[i].binding.deps[c] in st'.instances
    ensures
      var x := st.instances[i].binding.deps[c];
      st.instances[x].binding.task == c && st.instances[x].binding.scope == st.instances[i].binding.scope &&
      st'.instances[x].status == Done &&
      ControlOf(st'.tasks, c, st'.results, x) == ControlOf(st.tasks, c, st.results, x) &&
      Activates(st'.tasks[c], ControlOf(st'.tasks, c, st'.results, x), st.instances[i].binding.task)
  {
    hide Reachable, StoreOk, InstancesOk, IsRun, ScopesOk;
    ReachableOk(st);
    GraphParts(st);
    OwnerUnique(st.tasks, c, st.instances[i].binding.task);
    assert OwnerOk(st, i);
    assert BindingTyped(st.tasks, GraphOf(st.instances), GraphOf(st.instances)[i]);
    RunKeeps(st, actions, st');
    var x := st.instances[i].binding.deps[c];
    assert DoneKept(st, st', x);
    ControlSurvives(st, st', x);
  }

  // A route target exists only under a label its controller emitted.
  lemma RouteLabelEmitted(st: State, i: InstanceId, c: TaskId, routes: seq<Route>)
    requires Reachable(st) && i in st.instances && c in st.tasks && st.tasks[c].control == Some(RouteMode(routes))
    requires Owns(st.tasks[c], st.instances[i].binding.task)
    ensures c in st.instances[i].binding.deps && st.instances[i].binding.deps[c] in st.results
    ensures exists k :: RouteAt(st, st.instances[i].binding.deps[c], c, routes, k, st.instances[i].binding.task)
  {
    hide Reachable;
    BranchChosen(st, [], st, i, c);
    var x := st.instances[i].binding.deps[c];
    var k :| 0 <= k < |routes| && routes[k].name in ControlFor(st.tasks[c], st.results[x]).value.labels &&
      st.instances[i].binding.task in routes[k].targets;
    assert RouteAt(st, x, c, routes, k, st.instances[i].binding.task);
  }

  // Route k of the controller instance x of c was emitted and leads to t.
  ghost predicate RouteAt(st: State, x: InstanceId, c: TaskId, routes: seq<Route>, k: int, t: TaskId) {
    c in st.tasks && x in st.results && 0 <= k < |routes| && RouteTaken(st.tasks[c], st.results[x], routes[k], t)
  }

  ghost predicate RouteTaken(task: Task, payload: Payload, route: Route, t: TaskId) {
    t in route.targets && ControlFor(task, payload).Some? && route.name in ControlFor(task, payload).value.labels
  }

  // The stored result says stop.
  ghost predicate StopTaken(task: Task, payload: Payload) {
    ControlFor(task, payload).Some? && ControlFor(task, payload).value.action == Some(Stop)
  }

  // The stored result says continue.
  ghost predicate ContinueTaken(task: Task, payload: Payload) {
    ControlFor(task, payload).Some? && ControlFor(task, payload).value.action == Some(Continue)
  }

  // A loop controller instance opens at most one next scope, and not both a scope and a stop branch.
  lemma LoopEndsOrContinues(st: State, x: InstanceId, s: ScopeId, s': ScopeId, i: InstanceId, c: TaskId)
    requires Reachable(st) && x in st.instances && s in st.scopes && st.scopes[s].creator == Some(x)
    requires s' in st.scopes && st.scopes[s'].creator == Some(x)
    requires i in st.instances && c in st.tasks && c in st.instances[i].binding.deps
    ensures s == s'
    ensures st.instances[i].binding.deps[c] == x ==> !Owns(st.tasks[c], st.instances[i].binding.task)
  {
    hide Reachable, StoreOk, InstancesOk, WellFormed, ValidTasks;
    ReachableOk(st);
    assert s != BASE && s' != BASE;
    assert SameCreator(st.scopes, s, s');
    assert ScopeFed(st, s);
    if st.instances[i].binding.deps[c] == x && Owns(st.tasks[c], st.instances[i].binding.task) {
      BranchChosen(st, [], st, i, c);
    }
  }

  lemma SilentOpensNothing(st: State, s: ScopeId, x: InstanceId)
    requires Inv(st) && s in st.scopes && x !in st.results
    ensures st.scopes[s].creator != Some(x)
  {
    hide ValidTasks, WellFormed, InstancesOk, StoreOk, OwnerOk;
    if s != BASE {
      assert ScopeFed(st, s);
    }
  }

  lemma SilentSelectsNothing(st: State, x: InstanceId, i: InstanceId)
    requires Reachable(st) && x in st.instances && x !in st.results
    ensures !Decides(st, x, i)
  {
    hide Reachable;
    if Decides(st, x, i) {
      BranchChosen(st, [], st, i, st.instances[x].binding.task);
    }
  }

  // x decides about i: its task controls the task of i, and i is bound to it.
  ghost predicate Decides(st: State, x: InstanceId, i: InstanceId) {
    x in st.instances && i in st.instances &&
    var c := st.instances[x].binding.task;
    c in st.tasks && Owns(st.tasks[c], st.instances[i].binding.task) &&
    c in st.instances[i].binding.deps && st.instances[i].binding.deps[c] == x
  }

  // A done instance without a stored result has chosen nothing and never will: it opens no scope, and
  // nothing that its task controls is ever bound to it.
  lemma SilentChoosesNothing(st: State, actions: seq<Action>, st': State, x: InstanceId)
    requires Reachable(st) && IsRun(st, actions, st')
    requires x in st.instances && st.instances[x].status == Done && x !in st.results
    ensures forall s :: s in st'.scopes ==> st'.scopes[s].creator != Some(x)
    ensures forall i :: i in st'.instances ==> !Decides(st', x, i)
  {
    hide Reachable, IsRun, Activates, InstancesOk, StoreOk, GraphOk;
    DoneIsFinal(st, actions, st', x);
    ReachableRun(st, actions, st');
    ReachableOk(st');
    forall s | s in st'.scopes
      ensures st'.scopes[s].creator != Some(x)
    {
      SilentOpensNothing(st', s, x);
    }
    forall i | i in st'.instances && Decides(st', x, i)
      ensures false
    {
      SilentSelectsNothing(st', x, i);
    }
  }

  // ---------- input scopes ----------

  // What the iterations from the base scope to s have added, later ones first.
  ghost function PathInputs(st: State, s: ScopeId): map<string, Json>
    requires ControlOk(st) && ScopesOk(st.tasks, st.scopes, GraphOf(st.instances)) && s in st.scopes
    decreases s
  {
    if s == BASE then map[] else
      assert ScopeFed(st, s) && ScopeOk(st.tasks, st.scopes, GraphOf(st.instances), s);
      PathInputs(st, st.scopes[s].parent.value) +
        NextInputs(st.tasks, GraphOf(st.instances), st.results, st.scopes[s].creator.value)
  }

  lemma {:induction false} ScopeHoldsPathInputs(st: State, s: ScopeId)
    requires ControlOk(st) && ScopesOk(st.tasks, st.scopes, GraphOf(st.instances)) && s in st.scopes
    ensures st.scopes[s].values == PathInputs(st, s)
    decreases s
  {
    if s != BASE {
      assert ScopeFed(st, s) && ScopeOk(st.tasks, st.scopes, GraphOf(st.instances), s);
      ScopeHoldsPathInputs(st, st.scopes[s].parent.value);
    }
  }

  // The values of scope s: what its creator's stored control says, and for all other keys the parent's values.
  ghost predicate HoldsInputs(st: State, s: ScopeId, parent: ScopeId, inputs: Dict)
    requires s in st.scopes && parent in st.scopes
  {
    var values, inherited := st.scopes[s].values, st.scopes[parent].values;
    (forall k :: 0 <= k < |inputs| ==> inputs[k].0 in values && values[inputs[k].0] == inputs[k].1) &&
    forall key :: key !in KeysOf(inputs) ==>
      (key in values <==> key in inherited) && (key in inherited ==> values[key] == inherited[key])
  }

  // Every scope but the base was opened by a done loop controller instance of its parent scope that said
  // continue. Its seeds are the continue targets, and it holds the next inputs over its parent's values.
  lemma ScopeInputs(st: State, s: ScopeId) returns (x: InstanceId, parent: ScopeId, task: Task, control: Control)
    requires Reachable(st) && s in st.scopes && s != BASE
    ensures st.scopes[s].creator == Some(x) && st.scopes[s].parent == Some(parent) && parent in st.scopes
    ensures x in st.instances && st.instances[x].status == Done && st.instances[x].binding.scope == parent
    ensures st.instances[x].binding.task in st.tasks && task == st.tasks[st.instances[x].binding.task]
    ensures task.control.Some? && task.control.value.LoopMode?
    ensures st.scopes[s].seeds == task.control.value.continueTargets
    ensures x in st.results && ControlFor(task, st.results[x]) == Some(control) && control.action == Some(Continue)
    ensures HoldsInputs(st, s, parent, control.nextInputs)
  {
    hide Reachable, StoreOk, InstancesOk, WellFormed, ValidTasks, AsMap, ControlFor, HoldsInputs;
    ReachableOk(st);
    assert ScopeOk(st.tasks, st.scopes, GraphOf(st.instances), s) && ScopeFed(st, s);
    hide ScopesOk, ControlOk;
    x, parent := st.scopes[s].creator.value, st.scopes[s].parent.value;
    task := st.tasks[st.instances[x].binding.task];
    control := ControlFor(task, st.results[x]).value;
    AcceptedIff(task, st.results[x]);
    TidyHolds(control.nextInputs);
    HeldBy(st, s, parent, control.nextInputs);
  }

  // Scope s is the next iteration that x asked for: seeds, parent and inputs, told from the stored result.
  ghost predicate IsNextScope(st: State, s: ScopeId, x: InstanceId) {
    s in st.scopes && x in st.instances && x in st.results && st.instances[x].binding.task in st.tasks &&
    st.instances[x].binding.scope in st.scopes &&
    var parent, task := st.instances[x].binding.scope, st.tasks[st.instances[x].binding.task];
    task.control.Some? && task.control.value.LoopMode? && ContinueTaken(task, st.results[x]) &&
    st.scopes[s].creator == Some(x) && st.scopes[s].parent == Some(parent) &&
    st.scopes[s].seeds == task.control.value.continueTargets &&
    HoldsInputs(st, s, parent, ControlFor(task, st.results[x]).value.nextInputs)
  }

  lemma CreatedIsNext(st: State, s: ScopeId, x: InstanceId)
    requires Reachable(st) && s in st.scopes && st.scopes[s].creator == Some(x)
    ensures IsNextScope(st, s, x)
  {
    hide Reachable, HoldsInputs, ControlFor;
    BaseHasNoCreator(st);
    var x', parent, task, control := ScopeInputs(st, s);
  }

  lemma HeldBy(st: State, s: ScopeId, parent: ScopeId, inputs: Dict)
    requires s in st.scopes && parent in st.scopes && Holds(AsMap(inputs), inputs)
    requires st.scopes[s].values == st.scopes[parent].values + AsMap(inputs)
    ensures HoldsInputs(st, s, parent, inputs)
  {
    hide AsMap;
  }

  // So a key that the worker wrote, without the blanks around it, has in the next iteration the last value
  // written for it.
  lemma NextIterationReads(st: State, s: ScopeId, x: InstanceId, written: Dict, key: string, j: int)
    requires Reachable(st) && s in st.scopes && st.scopes[s].creator == Some(x)
    requires x in st.results && st.results[x].control.Some? && st.results[x].control.value.nextInputs == written
    requires IsLastStripped(written, key, j)
    ensures key in st.scopes[s].values && st.scopes[s].values[key] == written[j].1
  {
    hide Reachable, HoldsStripped, IsLastStripped, AsMap, ControlFor, Tidy, HoldsInputs;
    BaseHasNoCreator(st);
    var x', parent, task, control := ScopeInputs(st, s);
    AcceptedIff(task, st.results[x]);
    TidyHolds(control.nextInputs);
    StrippedHeld(AsMap(control.nextInputs), written, key, j);
    HeldReaches(st, s, parent, control.nextInputs, key);
  }

  lemma BaseHasNoCreator(st: State)
    requires Reachable(st)
    ensures BASE in st.scopes && st.scopes[BASE].creator == None
  {
    hide Reachable, WellFormed, ValidTasks, ControlOk, InstancesOk, StoreOk;
    ReachableOk(st);
  }

  lemma StrippedHeld(m: map<string, Json>, d: Dict, key: string, j: int)
    requires HoldsStripped(m, d) && IsLastStripped(d, key, j)
    ensures key in m && m[key] == d[j].1
  {
  }

  lemma HeldReaches(st: State, s: ScopeId, parent: ScopeId, inputs: Dict, key: string)
    requires s in st.scopes && parent in st.scopes && HoldsInputs(st, s, parent, inputs)
    requires Holds(AsMap(inputs), inputs) && key in AsMap(inputs)
    ensures key in st.scopes[s].values && st.scopes[s].values[key] == AsMap(inputs)[key]
  {
    hide AsMap;
    var k :| 0 <= k < |inputs| && inputs[k].0 == key;
  }

  // The scopes of a run form a tree under the base scope.
  lemma {:induction false} ScopesFormTree(st: State, s: ScopeId) returns (path: seq<ScopeId>)
    requires ScopesOk(st.tasks, st.scopes, GraphOf(st.instances)) && s in st.scopes
    ensures |path| >= 1 && path[0] == BASE && path[|path| - 1] == s
    ensures forall k :: 0 <= k < |path| ==> path[k] in st.scopes
    ensures forall k :: 0 < k < |path| ==> st.scopes[path[k]].parent == Some(path[k - 1])
    decreases s
  {
    if s == BASE {
      path := [BASE];
    } else {
      assert ScopeOk(st.tasks, st.scopes, GraphOf(st.instances), s);
      hide ScopesOk;
      var up := ScopesFormTree(st, st.scopes[s].parent.value);
      path := up + [s];
      forall k | 0 < k < |path|
        ensures st.scopes[path[k]].parent == Some(path[k - 1])
      {
        if k < |up| {
          assert path[k] == up[k] && path[k - 1] == up[k - 1];
        }
      }
    }
  }

  // ---------- attempts ----------

  // The log numbers the attempts of an instance from one on, without gap or repetition.
  lemma AttemptsNumbered(st: State, i: InstanceId)
    requires Reachable(st) && i in st.instances
    ensures |Started(st.log, i)| == st.instances[i].attempt
    ensures forall k :: 0 <= k < st.instances[i].attempt ==> Started(st.log, i)[k] == k + 1
    ensures i in st.live ==> st.instances[i].status == Running && st.live[i].attempt == st.instances[i].attempt
  {
    hide Reachable, GraphOk, ControlOk, StoreOk;
    ReachableOk(st);
    assert InstanceOk(st, i);
  }

  // Without a crash, an attempt is in flight exactly when its instance is running.
  ghost predicate InFlightIffRunning(st: State) {
    forall i :: i in st.instances ==> (i in st.live <==> st.instances[i].status == Running)
  }

  // A step that sets instance i alone, in flight exactly if it is now running.
  lemma FlightOfOne(st: State, st': State, i: InstanceId)
    requires InFlightIffRunning(st) && i in st.instances && i in st'.instances
    requires st'.instances == st.instances[i := st'.instances[i]]
    requires forall x :: x != i ==> (x in st'.live <==> x in st.live)
    requires i in st'.live <==> st'.instances[i].status == Running
    ensures InFlightIffRunning(st')
  {
  }

  lemma FlightUnchanged(st: State, st': State)
    requires InFlightIffRunning(st) && st'.live == st.live
    requires forall x :: x in st'.instances ==> x in st.instances && st'.instances[x] == st.instances[x]
    ensures InFlightIffRunning(st')
  {
  }

  lemma FlightKnown(st: State, i: InstanceId)
    requires InFlightIffRunning(st) && i in st.instances
    ensures i in st.live <==> st.instances[i].status == Running
  {
  }

  lemma FlightOfAdded(st: State, id: InstanceId, b: Binding)
    requires StoreOk(st) && InFlightIffRunning(st) && id !in st.instances
    ensures InFlightIffRunning(SetInstance(st, id, NewInstance(b), [InstanceCreated(id)]))
  {
    assert id !in st.live;
  }

  lemma InFlightStep(st: State, a: Action)
    requires Inv(st) && Enabled(st, a) && !a.Crash? && InFlightIffRunning(st)
    ensures InFlightIffRunning(Next(st, a))
  {
    hide GraphOk, ControlOk, StoreOk, InstancesOk, InFlightIffRunning, IsCandidate, MergedActivation, Continues,
      Finished, Recovered, Refreshed, Closed;
    match a
    case AddInstance(id, b) => FlightOfAdded(st, id, b);
    case Refresh(i) =>
      RefreshKeepsRunning(st.tasks[st.instances[i].binding.task], st.instances, st.interrupts, i);
      FlightKnown(st, i);
      FlightOfOne(st, Next(st, a), i);
    case Begin(i) => FlightOfOne(st, Next(st, a), i);
    case Finish(i, r, dir) =>
      EndsSettled(st, a);
      FlightOfOne(st, Next(st, a), i);
    case Recover(i, r, dir) =>
      EndsSettled(st, a);
      FlightOfOne(st, Next(st, a), i);
    case GiveUp(i, p, reason) => FlightOfOne(st, Next(st, a), i);
    case Abort(i) => FlightOfOne(st, Next(st, a), i);
    case Requeue(i) =>
      FlightKnown(st, i);
      FlightOfOne(st, Next(st, a), i);
    case NewScope(_, _) => FlightUnchanged(st, Next(st, a));
    case Ask(_, _) => FlightUnchanged(st, Next(st, a));
    case Answer(_, _) => FlightUnchanged(st, Next(st, a));
    case Apply(_) => FlightUnchanged(st, Next(st, a));
    case Crash =>
  }

  // An ended attempt leaves its instance waiting, done or failed.
  lemma EndsSettled(st: State, a: Action)
    requires InstancesOk(st) && Enabled(st, a) && (a.Finish? || a.Recover?)
    ensures a.id in Next(st, a).instances && Next(st, a).instances[a.id].status in {Waiting, Done, Failed}
  {
    hide Finished, Recovered, DoneOk, DependenciesSatisfied, OpenBlocking, MissingDecisions;
    assert InstanceOk(st, a.id);
    if a.Finish? {
      FinishedOk(st, a.id, a.result, a.dir);
    } else {
      RecoveredOk(st, a.id, a.runtime, a.dir);
    }
  }

  lemma RefreshKeepsRunning(task: Task, instances: map<InstanceId, Instance>, interrupts: map<InterruptId, Interrupt>,
                            i: InstanceId)
    requires i in instances
    ensures Refreshed(task, instances, interrupts, i).status == Running <==> instances[i].status == Running
  {
  }

  lemma {:induction false} InFlightRun(st: State, actions: seq<Action>, st': State)
    requires Inv(st) && IsRun(st, actions, st') && InFlightIffRunning(st)
    requires forall k :: 0 <= k < |actions| ==> !actions[k].Crash?
    ensures InFlightIffRunning(st')
    decreases |actions|
  {
    hide Inv, Enabled, Next, InFlightIffRunning;
    if actions != [] {
      InFlightStep(st, actions[0]);
      StepKeeps(st, actions[0]);
      InFlightRun(Next(st, actions[0]), actions[1..], st');
    }
  }
}
