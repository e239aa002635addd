// How many instances of a task an iteration makes, and how that hangs on the order of visits.
module SeedOrder {
  import opened Domain
  import opened Closure
  import opened TaskGraph
  import opened InstanceGraph
  import opened Iterations
  import opened TaskOrder
  import opened ControlEnvelope
  import opened RunState
  import opened Invariants
  import opened RunTheorems
  import opened RunSteps
  import opened ClosedRuns

  // ---------- bindings that keep an iteration apart ----------

  // y stands for e in scope s: made anew there, or a base instance that no iteration of s makes anew.
  ghost predicate Choice(st: State, s: ScopeId, e: TaskId, y: InstanceId) {
    var g := GraphOf(st.instances);
    s in st.scopes && y in g && g[y].task == e &&
    ((g[y].scope == s && Good(st.tasks, st.scopes, g, y)) ||
     (g[y].scope == BASE && !Descends(st.tasks, st.scopes[s].seeds, e) && LeadsToSeed(st.tasks, st.scopes[s].seeds, e)))
  }

  ghost predicate OwnerAllows(st: State, t: TaskId, s: ScopeId, deps: map<TaskId, InstanceId>) {
    var g, owner := GraphOf(st.instances), ControlOwner(st.tasks, t);
    owner.Some? ==>
      owner.value in deps && deps[owner.value] in g && g[deps[owner.value]].scope == s &&
      Selects(st.tasks, g, st.results, deps[owner.value], t)
  }

  ghost predicate HangsOn(st: State, t: TaskId, s: ScopeId, deps: map<TaskId, InstanceId>)
    requires s in st.scopes
  {
    t in st.scopes[s].seeds ||
    exists d :: d in deps && deps[d] in st.instances && st.instances[deps[d]].binding.scope == s
  }

  ghost predicate Chosen(st: State, t: TaskId, s: ScopeId, deps: map<TaskId, InstanceId>) {
    t in st.tasks && s in st.scopes && deps.Keys == DepTasks(st.tasks[t]) &&
    (forall d :: d in deps ==> Choice(st, s, d, deps[d])) && HangsOn(st, t, s, deps) && OwnerAllows(st, t, s, deps)
  }

  // Upstream of the choices, what descends from a seed lies in s, and the rest in the base scope.
  lemma ChoiceUpstream(st: State, s: ScopeId, e: TaskId, y: InstanceId, z: InstanceId)
    requires GraphOk(st) && s != BASE && Choice(st, s, e, y) && Closed(GraphOf(st.instances))
    requires z in Upstream(GraphOf(st.instances), y) && z in st.instances
    ensures
      var g := GraphOf(st.instances);
      if Descends(st.tasks, st.scopes[s].seeds, g[z].task) then g[z].scope == s && Good(st.tasks, st.scopes, g, z)
      else g[z].scope == BASE
  {
    hide GraphOk, ScopesOk, Descends, LeadsToSeed, CanReuseBase, KeysUnique;
    GraphParts(st);
    var g := GraphOf(st.instances);
    ScopeIsolation(st.tasks, st.scopes, g, y, z);
    if g[y].scope == s {
      if g[z].scope == s {
        InScopeDescends(st.tasks, st.scopes, g, z);
        GoodUpstream(st.tasks, st.scopes, g, y, z);
      }
    } else {
      if Descends(st.tasks, st.scopes[s].seeds, g[z].task) {
        BaseUpstreamDescends(st.tasks, g, st.scopes[s].seeds, y, z);
      }
    }
  }

  lemma ChosenCoherent(st: State, s: ScopeId, deps: map<TaskId, InstanceId>)
    requires GraphOk(st) && s != BASE && s in st.scopes && forall d :: d in deps ==> Choice(st, s, d, deps[d])
    ensures Closed(GraphOf(st.instances)) && DepsIn(GraphOf(st.instances), deps)
    ensures Coherent(GraphOf(st.instances), UpstreamOf(GraphOf(st.instances), deps))
  {
    hide GraphOk, Choice, Descends, Good, Upstream, KeysUnique, AllPlaced, Typed;
    GraphParts(st);
    var g := GraphOf(st.instances);
    ChoicesPresent(st, s, deps);
    forall x, y | x in UpstreamOf(g, deps) && y in UpstreamOf(g, deps) && SameTask(g, x, y)
      ensures x == y
    {
      var d :| d in deps && x in Upstream(g, deps[d]);
      var e :| e in deps && y in Upstream(g, deps[e]);
      ChoiceUpstream(st, s, d, deps[d], x);
      ChoiceUpstream(st, s, e, deps[e], y);
      if Descends(st.tasks, st.scopes[s].seeds, g[x].task) {
        GoodUnique(st.tasks, st.scopes, g, x, y);
      } else {
        AtMostOneInBase(st.tasks, st.scopes, g, x, y);
      }
    }
  }

  lemma ChoicesPresent(st: State, s: ScopeId, deps: map<TaskId, InstanceId>)
    requires forall d :: d in deps ==> Choice(st, s, d, deps[d])
    ensures DepsIn(GraphOf(st.instances), deps)
  {
    hide Good, Descends, LeadsToSeed;
  }

  // Such choices are a valid binding...
  lemma ChosenIsCandidate(st: State, t: TaskId, s: ScopeId, deps: map<TaskId, InstanceId>)
    requires Inv(st) && s != BASE && Chosen(st, t, s, deps)
    ensures Closed(GraphOf(st.instances))
    ensures IsCandidate(st.tasks, st.scopes, GraphOf(st.instances), st.results, t, s, deps)
  {
    hide Inv, GraphOk, InstancesOk, ControlOk, StoreOk, Descends, LeadsToSeed, Good, Selects, CanReuseBase, Coherent,
      Typed, AllPlaced, KeysUnique, Upstream;
    InvParts(st);
    GraphParts(st);
    var g := GraphOf(st.instances);
    ChosenCoherent(st, s, deps);
    forall d | d in deps
      ensures MayFill(st.tasks, st.scopes, g, st.results, t, s, d, deps[d])
    {
      assert Choice(st, s, d, deps[d]);
      ChoiceFills(st, s, d, deps[d]);
    }
    assert Anchored(st.scopes, g, t, s, deps);
  }

  lemma ChoiceFills(st: State, s: ScopeId, d: TaskId, y: InstanceId)
    requires GraphOk(st) && s != BASE && Choice(st, s, d, y)
    ensures
      var g := GraphOf(st.instances);
      if g[y].scope == s then HasInScope(g, d, s)
      else g[y].scope == BASE && !HasInScope(g, d, s) && CanReuseBase(st.tasks, st.scopes, s, d)
  {
    hide GraphOk, ScopesOk, Descends, LeadsToSeed, CanReuseBase, KeysUnique, Good;
    GraphParts(st);
    var g := GraphOf(st.instances);
    ReusableLeads(st.tasks, st.scopes, s, d);
    if x :| x in g && g[x].task == d && g[x].scope == s {
      InScopeDescends(st.tasks, st.scopes, g, x);
    }
  }

  // ...and what is bound by them is good.
  lemma ChosenIsGood(st: State, i: InstanceId)
    requires GraphOk(st) && i in st.instances && st.instances[i].binding.scope != BASE
    requires Chosen(st, st.instances[i].binding.task, st.instances[i].binding.scope, st.instances[i].binding.deps)
    ensures Good(st.tasks, st.scopes, GraphOf(st.instances), i)
  {
    hide GraphOk, Choice, Descends, KeysUnique, AllPlaced, Typed, OwnerAllows, HangsOn;
    GraphParts(st);
    var g := GraphOf(st.instances);
    var s := g[i].scope;
    forall z | z in Upstream(g, i) && z in g && Descends(st.tasks, st.scopes[s].seeds, g[z].task)
      ensures g[z].scope == s
    {
      if z != i {
        var d :| d in g[i].deps && z in Upstream(g, g[i].deps[d]);
        ChoiceUpstream(st, s, d, g[i].deps[d], z);
      }
    }
  }

  // In a closed run the chosen binding has its instance, and that is good.
  lemma ChosenHasInstance(st: State, t: TaskId, s: ScopeId, deps: map<TaskId, InstanceId>) returns (j: InstanceId)
    requires Inv(st) && SyncClosed(st) && s != BASE && Chosen(st, t, s, deps)
    ensures j in st.instances && KeyOf(st.instances[j].binding) == Key(t, deps, s)
    ensures Good(st.tasks, st.scopes, GraphOf(st.instances), j)
  {
    hide Inv, Chosen, Good, IsCandidate, SyncClosed, GraphOk;
    InvParts(st);
    ChosenIsCandidate(st, t, s, deps);
    ChosenKnown(st, t, s, deps);
    j := CandidateInstance(st, t, s, deps);
    ChosenIsGood(st, j);
  }

  lemma ChosenKnown(st: State, t: TaskId, s: ScopeId, deps: map<TaskId, InstanceId>)
    requires Chosen(st, t, s, deps)
    ensures t in st.tasks && s in st.scopes && deps.Keys == DepTasks(st.tasks[t])
  {
  }

  // ---------- the good twin of an instance ----------

  // Nothing in s has ended yet, so no controller of s has chosen anything.
  ghost predicate NothingDoneIn(st: State, s: ScopeId) {
    forall i :: i in st.instances && st.instances[i].binding.scope == s ==> st.instances[i].status != Done
  }

  // i is in s, or a base instance of a task that iterations of s make anew.
  ghost predicate HasTwin(st: State, s: ScopeId, i: InstanceId) {
    i in st.instances && s in st.scopes && s != BASE &&
    (st.instances[i].binding.scope == s ||
     (st.instances[i].binding.scope == BASE && InIteration(st.tasks, st.scopes[s].seeds, st.instances[i].binding.task)))
  }

  ghost predicate InIteration(tasks: Tasks, seeds: seq<TaskId>, t: TaskId) {
    t in seeds || Between(tasks, seeds, t)
  }

  ghost predicate IsTwin(st: State, s: ScopeId, t: TaskId, j: InstanceId) {
    j in st.instances && st.instances[j].binding.task == t && st.instances[j].binding.scope == s &&
    Good(st.tasks, st.scopes, GraphOf(st.instances), j)
  }

  ghost predicate TwinExists(st: State, s: ScopeId, i: InstanceId) {
    i in st.instances && exists j :: IsTwin(st, s, st.instances[i].binding.task, j)
  }

  // In a closed run every such instance has a good instance of its task in s.
  lemma {:induction false} Twin(st: State, s: ScopeId, i: InstanceId)
    requires Inv(st) && SyncClosed(st) && HasTwin(st, s, i) && NothingDoneIn(st, s)
    requires BetweenFree(st.tasks, st.scopes[s].seeds)
    ensures TwinExists(st, s, i)
    decreases i
  {
    hide Inv, SyncClosed, NothingDoneIn, BetweenFree, HasTwin, TwinExists, Replaces;
    TwinKnown(st, s, i);
    DependenciesBefore(st, i);
    forall d | d in st.instances[i].binding.deps
      ensures exists y :: Replaces(st, s, i, d, y)
    {
      var x := st.instances[i].binding.deps[d];
      if HasTwin(st, s, x) {
        Twin(st, s, x);
      }
      TwinDependency(st, s, i, d);
    }
    TwinFromDependencies(st, s, i);
  }

  lemma DependenciesBefore(st: State, i: InstanceId)
    requires Inv(st) && i in st.instances
    ensures forall d :: d in st.instances[i].binding.deps ==>
      st.instances[i].binding.deps[d] in st.instances && st.instances[i].binding.deps[d] < i
  {
    hide Inv;
    ClosedRun(st);
    assert GraphOf(st.instances)[i] == st.instances[i].binding;
  }

  lemma TwinFromDependencies(st: State, s: ScopeId, i: InstanceId)
    requires Inv(st) && SyncClosed(st) && HasTwin(st, s, i) && NothingDoneIn(st, s)
    requires BetweenFree(st.tasks, st.scopes[s].seeds)
    requires forall d :: d in st.instances[i].binding.deps ==> exists y :: Replaces(st, s, i, d, y)
    ensures TwinExists(st, s, i)
  {
    hide Inv, SyncClosed, NothingDoneIn, BetweenFree, Replaces, Chosen, Good, Between;
    var deps := TwinDeps(st, s, i);
    TwinFree(st, s, i);
    TwinChosen(st, s, i, deps);
    var j := ChosenHasInstance(st, st.instances[i].binding.task, s, deps);
    assert IsTwin(st, s, st.instances[i].binding.task, j);
  }

  // y replaces the dependency d of i: anew if d descends from a seed, else the same base instance.
  ghost predicate Replaces(st: State, s: ScopeId, i: InstanceId, d: TaskId, y: InstanceId) {
    Choice(st, s, d, y) && i in st.instances && d in st.instances[i].binding.deps &&
    (Descends(st.tasks, st.scopes[s].seeds, d) ==> st.instances[y].binding.scope == s)
  }

  ghost function TwinDeps(st: State, s: ScopeId, i: InstanceId): (deps: map<TaskId, InstanceId>)
    requires i in st.instances
    requires forall d :: d in st.instances[i].binding.deps ==> exists y :: Replaces(st, s, i, d, y)
    ensures deps.Keys == st.instances[i].binding.deps.Keys && forall d :: d in deps ==> Replaces(st, s, i, d, deps[d])
  {
    map d | d in st.instances[i].binding.deps :: (var y :| Replaces(st, s, i, d, y); y)
  }

  lemma TwinDependency(st: State, s: ScopeId, i: InstanceId, d: TaskId)
    requires Inv(st) && HasTwin(st, s, i) && d in st.instances[i].binding.deps
    requires HasTwin(st, s, st.instances[i].binding.deps[d]) ==> TwinExists(st, s, st.instances[i].binding.deps[d])
    ensures exists y :: Replaces(st, s, i, d, y)
  {
    hide Inv, GraphOk, InstancesOk, ControlOk, StoreOk, Descends, LeadsToSeed, Good, KeysUnique, CanReuseBase,
      AllPlaced, Typed;
    InvParts(st);
    var g, seeds := GraphOf(st.instances), st.scopes[s].seeds;
    var x := g[i].deps[d];
    TwinReusable(st, s, i, d);
    if g[x].scope == s || Descends(st.tasks, seeds, d) {
      assert HasTwin(st, s, x);
      var j :| IsTwin(st, s, d, j);
      assert Replaces(st, s, i, d, j);
    } else {
      assert Replaces(st, s, i, d, x);
    }
  }

  // A dependency that i takes from the base scope leads to a seed of s.
  lemma TwinReusable(st: State, s: ScopeId, i: InstanceId, d: TaskId)
    requires GraphOk(st) && HasTwin(st, s, i) && d in st.instances[i].binding.deps
    ensures
      var x := st.instances[i].binding.deps[d];
      x in st.instances && st.instances[x].binding.task == d &&
      (st.instances[x].binding.scope == s ||
       (st.instances[x].binding.scope == BASE && LeadsToSeed(st.tasks, st.scopes[s].seeds, d)))
  {
    hide GraphOk, ScopesOk, Descends, LeadsToSeed, KeysUnique, CanReuseBase, IsAncestor;
    GraphParts(st);
    var g := GraphOf(st.instances);
    assert BindingTyped(st.tasks, g, g[i]) && BindingPlaced(st.tasks, st.scopes, g, g[i]);
    assert DepPlaced(st.tasks, st.scopes, g, g[i].scope, d, g[i].deps[d]);
    if g[i].scope == s {
      ReusableLeads(st.tasks, st.scopes, s, d);
    } else {
      DependencyIsAncestor(st.tasks, d, g[i].task);
      LeadsOnUp(st.tasks, st.scopes[s].seeds, d, g[i].task);
    }
  }

  lemma TwinChosen(st: State, s: ScopeId, i: InstanceId, deps: map<TaskId, InstanceId>)
    requires Inv(st) && HasTwin(st, s, i) && ControlOwner(st.tasks, st.instances[i].binding.task).None?
    requires deps.Keys == st.instances[i].binding.deps.Keys
    requires forall d :: d in deps ==> Replaces(st, s, i, d, deps[d])
    ensures Chosen(st, st.instances[i].binding.task, s, deps)
  {
    hide Inv, Choice, Replaces, Descends, Selects, ControlOwner, GraphOk, HasTwin, HangsOn, OwnerAllows;
    InvParts(st);
    TwinKnown(st, s, i);
    TaskOfInstance(st, i);
    forall d | d in deps
      ensures Choice(st, s, d, deps[d])
    {
      ReplacementIsChoice(st, s, i, d, deps[d]);
    }
    TwinHangs(st, s, i, deps);
    FreeOwnerAllows(st, st.instances[i].binding.task, s, deps);
  }

  lemma TwinKnown(st: State, s: ScopeId, i: InstanceId)
    requires HasTwin(st, s, i)
    ensures i in st.instances && s in st.scopes && s != BASE
  {
    hide InIteration;
  }

  lemma TwinHangs(st: State, s: ScopeId, i: InstanceId, deps: map<TaskId, InstanceId>)
    requires GraphOk(st) && HasTwin(st, s, i) && deps.Keys == st.instances[i].binding.deps.Keys
    requires forall d :: d in deps ==> Replaces(st, s, i, d, deps[d])
    ensures HangsOn(st, st.instances[i].binding.task, s, deps)
  {
    hide GraphOk, Replaces, InIteration, Descends;
    if st.instances[i].binding.task !in st.scopes[s].seeds {
      var d := TwinAnchor(st, s, i);
      ReplacementIsChoice(st, s, i, d, deps[d]);
    }
  }

  lemma FreeOwnerAllows(st: State, t: TaskId, s: ScopeId, deps: map<TaskId, InstanceId>)
    requires ControlOwner(st.tasks, t).None?
    ensures OwnerAllows(st, t, s, deps)
  {
  }

  lemma ReplacementIsChoice(st: State, s: ScopeId, i: InstanceId, d: TaskId, y: InstanceId)
    requires Replaces(st, s, i, d, y)
    ensures Choice(st, s, d, y) && y in st.instances && s in st.scopes
    ensures Descends(st.tasks, st.scopes[s].seeds, d) ==> st.instances[y].binding.scope == s
  {
    hide Good, Descends, LeadsToSeed;
  }

  lemma TaskOfInstance(st: State, i: InstanceId)
    requires Inv(st) && i in st.instances
    ensures st.instances[i].binding.task in st.tasks
    ensures st.instances[i].binding.deps.Keys == DepTasks(st.tasks[st.instances[i].binding.task])
  {
    hide Inv;
    DependenciesElsewhere(st, i);
  }

  lemma TwinFree(st: State, s: ScopeId, i: InstanceId)
    requires Inv(st) && HasTwin(st, s, i) && NothingDoneIn(st, s) && BetweenFree(st.tasks, st.scopes[s].seeds)
    ensures ControlOwner(st.tasks, st.instances[i].binding.task).None?
  {
    hide Inv, GraphOk, InstancesOk, StoreOk, ControlOk, Between, KeysUnique, IsAncestor, Selects, ControlOwner;
    InvParts(st);
    GraphParts(st);
    assert OwnerOk(st, i) by {
      OwnersOk(st, i);
    }
    assert BindingTyped(st.tasks, GraphOf(st.instances), GraphOf(st.instances)[i]);
    var t := st.instances[i].binding.task;
    if st.instances[i].binding.scope != s && t in st.scopes[s].seeds {
      var c := SeedOf(st, s, t);
      SeedUncontrolled(st.tasks, c, t);
    }
  }

  lemma OwnersOk(st: State, i: InstanceId)
    requires ControlOk(st) && i in st.instances
    ensures OwnerOk(st, i)
  {
    hide OwnerOk, ScopeFed;
  }

  // A dependency that anchors the twin.
  lemma TwinAnchor(st: State, s: ScopeId, i: InstanceId) returns (d: TaskId)
    requires GraphOk(st) && HasTwin(st, s, i) && st.instances[i].binding.task !in st.scopes[s].seeds
    ensures d in st.instances[i].binding.deps && Descends(st.tasks, st.scopes[s].seeds, d)
  {
    hide GraphOk, ScopesOk, LeadsToSeed, KeysUnique, CanReuseBase, IsAncestor, Descends;
    GraphParts(st);
    var g := GraphOf(st.instances);
    assert BindingTyped(st.tasks, g, g[i]) && BindingPlaced(st.tasks, st.scopes, g, g[i]);
    if g[i].scope == s {
      d :| d in g[i].deps && g[g[i].deps[d]].scope == s;
      InScopeDescends(st.tasks, st.scopes, g, g[i].deps[d]);
    } else {
      d := DescendsThrough(st.tasks, st.scopes[s].seeds, g[i].task);
    }
  }

  // ---------- two instances of one task ----------

  // Two instances of one task in s.
  ghost predicate DoubledBy(st: State, s: ScopeId, i: InstanceId, j: InstanceId) {
    i != j && i in st.instances && j in st.instances && st.instances[i].binding.scope == s &&
    st.instances[j].binding.scope == s && st.instances[i].binding.task == st.instances[j].binding.task
  }

  // The instance i of s hangs on a base instance of a seed of s or of a task that descends from one.
  ghost predicate Borrows(st: State, s: ScopeId, i: InstanceId) {
    i in st.instances && st.instances[i].binding.scope == s && s in st.scopes &&
    exists z :: BorrowedBy(st, s, i, z)
  }

  ghost predicate BorrowedBy(st: State, s: ScopeId, i: InstanceId, z: InstanceId) {
    var g := GraphOf(st.instances);
    Closed(g) && i in g && z in g && s in st.scopes && z in Upstream(g, i) && g[z].scope == BASE &&
    Descends(st.tasks, st.scopes[s].seeds, g[z].task)
  }

  lemma BorrowsIff(st: State, s: ScopeId, i: InstanceId)
    requires GraphOk(st) && s != BASE && i in st.instances && st.instances[i].binding.scope == s
    ensures s in st.scopes && (Borrows(st, s, i) <==> !Good(st.tasks, st.scopes, GraphOf(st.instances), i))
  {
    hide GraphOk, ScopesOk, Descends, KeysUnique, CanReuseBase, Upstream;
    GraphParts(st);
    var g := GraphOf(st.instances);
    assert BindingPlaced(st.tasks, st.scopes, g, g[i]);
    if !Good(st.tasks, st.scopes, g, i) {
      var z :| z in Upstream(g, i) && z in g && Descends(st.tasks, st.scopes[s].seeds, g[z].task) && g[z].scope != s;
      ScopeIsolation(st.tasks, st.scopes, g, i, z);
      assert BorrowedBy(st, s, i, z);
    }
    if z :| BorrowedBy(st, s, i, z) {
      assert z in Upstream(g, i) && z in g && g[z].scope != s;
    }
  }

  // In a closed run an iteration in which nothing has ended has two instances of some task exactly
  // when one of its instances was bound too early, to a base instance of what the iteration makes anew.
  lemma DoubledIff(st: State, s: ScopeId)
    requires Reachable(st) && SyncClosed(st) && s in st.scopes && s != BASE
    requires NothingDoneIn(st, s) && BetweenFree(st.tasks, st.scopes[s].seeds)
    ensures (exists i, j :: DoubledBy(st, s, i, j)) <==> exists i :: Borrows(st, s, i)
  {
    hide Reachable, Inv, GraphOk, SyncClosed, NothingDoneIn, BetweenFree, Good, Borrows;
    ReachableOk(st);
    InvParts(st);
    if i :| Borrows(st, s, i) {
      BorrowerDoubled(st, s, i);
    }
    if i, j :| DoubledBy(st, s, i, j) {
      BorrowsIff(st, s, i);
      BorrowsIff(st, s, j);
      GraphParts(st);
      if !Borrows(st, s, i) && !Borrows(st, s, j) {
        GoodUnique(st.tasks, st.scopes, GraphOf(st.instances), i, j);
      }
    }
  }

  lemma BorrowerDoubled(st: State, s: ScopeId, i: InstanceId)
    requires Inv(st) && SyncClosed(st) && s in st.scopes && s != BASE
    requires NothingDoneIn(st, s) && BetweenFree(st.tasks, st.scopes[s].seeds) && Borrows(st, s, i)
    ensures exists j :: DoubledBy(st, s, i, j)
  {
    hide Inv, GraphOk, SyncClosed, NothingDoneIn, BetweenFree, Good, BorrowedBy;
    InvParts(st);
    BorrowsIff(st, s, i);
    Twin(st, s, i);
    var j :| IsTwin(st, s, st.instances[i].binding.task, j);
    assert DoubledBy(st, s, i, j);
  }

  // ---------- visits in an order that suits the loops ----------

  // If u lies between the seeds of s and has a base instance, it has been made anew in s.
  ghost predicate Caught(st: State, s: ScopeId, u: TaskId) {
    s in st.scopes && s != BASE && Between(st.tasks, st.scopes[s].seeds, u) &&
    HasInScope(GraphOf(st.instances), u, BASE) ==>
      HasInScope(GraphOf(st.instances), u, s)
  }

  ghost predicate AllCaught(st: State, s: ScopeId, ts: set<TaskId>) {
    forall u :: u in ts ==> Caught(st, s, u)
  }

  // What t can be bound to then is clean.
  lemma CaughtIsClean(st: State, t: TaskId, s: ScopeId, deps: map<TaskId, InstanceId>,
                      activation: map<TaskId, InstanceId>)
    requires Closed(GraphOf(st.instances)) && t in st.tasks && AllCaught(st, s, DepTasks(st.tasks[t]))
    requires IsCandidate(st.tasks, st.scopes, GraphOf(st.instances), st.results, t, s, deps)
    ensures CleanBinding(st.tasks, st.scopes, GraphOf(st.instances), Binding(t, s, deps, activation))
  {
    hide Between, Coherent, MayFill, Caught, Anchored;
    var g := GraphOf(st.instances);
    forall d | s in st.scopes && s != BASE && d in deps && Between(st.tasks, st.scopes[s].seeds, d)
      ensures g[deps[d]].scope == s
    {
      FillsFrom(st, t, s, d, deps[d]);
      CaughtPresent(st, s, d, deps[d]);
    }
  }

  lemma FillsFrom(st: State, t: TaskId, s: ScopeId, d: TaskId, x: InstanceId)
    requires s in st.scopes && MayFill(st.tasks, st.scopes, GraphOf(st.instances), st.results, t, s, d, x)
    ensures
      var g := GraphOf(st.instances);
      x in g && g[x].task == d && (g[x].scope == s || g[x].scope == BASE) && (HasInScope(g, d, s) ==> g[x].scope == s)
  {
    hide Selects, CanReuseBase;
  }

  lemma CaughtPresent(st: State, s: ScopeId, d: TaskId, x: InstanceId)
    requires Caught(st, s, d) && s in st.scopes && s != BASE && Between(st.tasks, st.scopes[s].seeds, d)
    requires
      var g := GraphOf(st.instances);
      x in g && g[x].task == d && (g[x].scope == s || g[x].scope == BASE)
    ensures HasInScope(GraphOf(st.instances), d, s)
  {
    hide Between;
  }

  // And t, if it lies between the seeds itself, can be bound.
  lemma CaughtCandidate(st: State, t: TaskId, s: ScopeId, x: InstanceId) returns (deps: map<TaskId, InstanceId>)
    requires Inv(st) && Clean(st.tasks, st.scopes, GraphOf(st.instances)) && s in st.scopes && s != BASE
    requires t in st.tasks && Between(st.tasks, st.scopes[s].seeds, t) && ControlOwner(st.tasks, t).None?
    requires AllCaught(st, s, DepTasks(st.tasks[t]))
    requires x in st.instances && st.instances[x].binding.task == t && st.instances[x].binding.scope == BASE
    ensures Closed(GraphOf(st.instances))
    ensures IsCandidate(st.tasks, st.scopes, GraphOf(st.instances), st.results, t, s, deps)
  {
    hide Inv, Clean, Between, AllCaught, Replaces, IsCandidate, Chosen, ControlOwner;
    assert HasTwin(st, s, x);
    forall d | d in st.instances[x].binding.deps
      ensures exists y :: Replaces(st, s, x, d, y)
    {
      TaskOfInstance(st, x);
      assert Caught(st, s, d) by {
        CaughtOne(st, s, DepTasks(st.tasks[t]), d);
      }
      CaughtReplaces(st, s, x, d);
    }
    deps := TwinDeps(st, s, x);
    TwinChosen(st, s, x, deps);
    ChosenIsCandidate(st, t, s, deps);
  }

  lemma CaughtOne(st: State, s: ScopeId, ts: set<TaskId>, u: TaskId)
    requires AllCaught(st, s, ts) && u in ts
    ensures Caught(st, s, u)
  {
  }

  lemma CaughtReplaces(st: State, s: ScopeId, x: InstanceId, d: TaskId)
    requires Inv(st) && Clean(st.tasks, st.scopes, GraphOf(st.instances)) && HasTwin(st, s, x)
    requires d in st.instances[x].binding.deps && st.instances[x].binding.scope == BASE && Caught(st, s, d)
    ensures exists y :: Replaces(st, s, x, d, y)
  {
    hide Inv, GraphOk, InstancesOk, ControlOk, StoreOk, Descends, LeadsToSeed, Good, Clean, CanReuseBase, InIteration;
    InvParts(st);
    GraphParts(st);
    var g := GraphOf(st.instances);
    assert BindingTyped(st.tasks, g, g[x]) && BindingPlaced(st.tasks, st.scopes, g, g[x]);
    var b := g[x].deps[d];
    assert DepPlaced(st.tasks, st.scopes, g, BASE, d, b);
    assert HasInScope(g, d, BASE);
    TwinReusable(st, s, x, d);
    if Descends(st.tasks, st.scopes[s].seeds, d) {
      var y :| y in g && g[y].task == d && g[y].scope == s;
      CleanIsGood(st.tasks, st.scopes, g, y);
      assert Replaces(st, s, x, d, y);
    } else {
      assert Replaces(st, s, x, d, b);
    }
  }
}
