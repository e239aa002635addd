// Which visit of sync binds a task too early, to base instances of what the iteration makes anew.
module EarlyVisits {
  import opened Domain
  import opened Closure
  import opened TaskGraph
  import opened InstanceGraph
  import opened Iterations
  import opened TaskOrder
  import opened ControlEnvelope
  import opened RunState
  import opened Invariants
  import opened RunTheorems
  import opened RunSteps
  import opened ClosedRuns
  import opened SeedOrder
  import opened SyncVisits

  // So far nothing in s is bound too early.
  ghost predicate AllGood(st: State, s: ScopeId) {
    forall i :: i in st.instances && st.instances[i].binding.scope == s ==>
      Good(st.tasks, st.scopes, GraphOf(st.instances), i)
  }

  // ---------- the guard ----------

  // There is something for dependency d: of s itself, or a base instance that may stand in.
  ghost predicate Fillable(st: State, s: ScopeId, d: TaskId)
    requires s in st.scopes
  {
    HasInScope(GraphOf(st.instances), d, s) ||
    (HasInScope(GraphOf(st.instances), d, BASE) && LeadsToSeed(st.tasks, st.scopes[s].seeds, d))
  }

  ghost predicate OwnerReady(st: State, t: TaskId, s: ScopeId) {
    ControlOwner(st.tasks, t).Some? ==> exists y :: OwnerChose(st, t, s, ControlOwner(st.tasks, t).value, y)
  }

  ghost predicate OwnerChose(st: State, t: TaskId, s: ScopeId, c: TaskId, y: InstanceId) {
    y in st.instances && st.instances[y].binding.task == c && st.instances[y].binding.scope == s &&
    Selects(st.tasks, GraphOf(st.instances), st.results, y, t)
  }

  // The iteration makes d anew but has not done so yet.
  ghost predicate Late(st: State, s: ScopeId, d: TaskId)
    requires s in st.scopes
  {
    Descends(st.tasks, st.scopes[s].seeds, d) && !HasInScope(GraphOf(st.instances), d, s)
  }

  // A dependency that is missing in s and one that is there need no common task of the iteration.
  ghost predicate Apart(st: State, s: ScopeId, d: TaskId, e: TaskId)
    requires s in st.scopes
  {
    !HasInScope(GraphOf(st.instances), d, s) && HasInScope(GraphOf(st.instances), e, s) ==>
      !Share(st.tasks, st.scopes[s].seeds, d, e)
  }

  // A visit of t in s now binds t too early. This looks only at what is present and at the task graph.
  ghost predicate BindsEarly(st: State, t: TaskId, s: ScopeId) {
    t in st.tasks && s in st.scopes && s != BASE && OwnerReady(st, t, s) &&
    (forall d :: d in DepTasks(st.tasks[t]) ==> Fillable(st, s, d)) &&
    (t in st.scopes[s].seeds || exists d :: d in DepTasks(st.tasks[t]) && HasInScope(GraphOf(st.instances), d, s)) &&
    (exists d :: d in DepTasks(st.tasks[t]) && Late(st, s, d)) &&
    forall d, e {:trigger Apart(st, s, d, e)} :: d in DepTasks(st.tasks[t]) && e in DepTasks(st.tasks[t]) ==>
      Apart(st, s, d, e)
  }

  // ---------- early bindings ----------

  // Some dependency is taken from the base scope although the iteration makes it anew.
  ghost predicate TakesEarly(st: State, s: ScopeId, deps: map<TaskId, InstanceId>) {
    s in st.scopes && exists d :: d in deps && TakenEarly(st, s, d, deps[d])
  }

  ghost predicate TakenEarly(st: State, s: ScopeId, d: TaskId, x: InstanceId)
    requires s in st.scopes
  {
    InBase(GraphOf(st.instances), x) && Descends(st.tasks, st.scopes[s].seeds, d)
  }

  // x fills d: the instance of s if there is one, else a base instance that may stand in.
  ghost predicate Fills(st: State, s: ScopeId, d: TaskId, x: InstanceId) {
    var g := GraphOf(st.instances);
    s in st.scopes && x in g && g[x].task == d &&
    if HasInScope(g, d, s) then g[x].scope == s else g[x].scope == BASE && LeadsToSeed(st.tasks, st.scopes[s].seeds, d)
  }

  // What lies upstream of a filled dependency, and where.
  lemma FilledUpstream(st: State, s: ScopeId, d: TaskId, x: InstanceId, z: InstanceId)
    requires GraphOk(st) && AllGood(st, s) && s != BASE && Fills(st, s, d, x) && Closed(GraphOf(st.instances))
    requires z in Upstream(GraphOf(st.instances), x) && z in st.instances
    ensures
      var g := GraphOf(st.instances);
      AtOrAbove(st.tasks, g[z].task, d) &&
      if g[x].scope == s && Descends(st.tasks, st.scopes[s].seeds, g[z].task)
      then g[z].scope == s && Good(st.tasks, st.scopes, g, z) else g[z].scope == BASE
  {
    hide GraphOk, ScopesOk, Descends, LeadsToSeed, CanReuseBase, KeysUnique, IsAncestor, HasInScope, Good;
    GraphParts(st);
    var g := GraphOf(st.instances);
    if z != x {
      UpstreamTask(st.tasks, g, x, z);
    }
    ScopeIsolation(st.tasks, st.scopes, g, x, z);
    if g[x].scope == s {
      GoodUpstreamOf(st, s, x, z);
    }
  }

  lemma GoodUpstreamOf(st: State, s: ScopeId, x: InstanceId, z: InstanceId)
    requires GraphOk(st) && AllGood(st, s) && s != BASE && s in st.scopes && x in st.instances && z in st.instances
    requires st.instances[x].binding.scope == s && Closed(GraphOf(st.instances))
    requires z in Upstream(GraphOf(st.instances), x)
    requires st.instances[z].binding.scope == s || st.instances[z].binding.scope == BASE
    ensures
      var g := GraphOf(st.instances);
      if Descends(st.tasks, st.scopes[s].seeds, g[z].task) then g[z].scope == s && Good(st.tasks, st.scopes, g, z)
      else g[z].scope == BASE
  {
    hide GraphOk, Descends, KeysUnique, Upstream, ScopesOk;
    GraphParts(st);
    var g := GraphOf(st.instances);
    assert Good(st.tasks, st.scopes, g, x);
    if g[z].scope == s {
      InScopeDescends(st.tasks, st.scopes, g, z);
      assert Good(st.tasks, st.scopes, g, z);
    }
  }

  // Filled dependencies that keep apart are coherent.
  lemma FilledAlike(st: State, s: ScopeId, d: TaskId, e: TaskId, x: InstanceId, y: InstanceId, z: InstanceId,
                    w: InstanceId)
    requires GraphOk(st) && AllGood(st, s) && s != BASE && Closed(GraphOf(st.instances))
    requires Fills(st, s, d, x) && Fills(st, s, e, y) && Apart(st, s, d, e) && Apart(st, s, e, d)
    requires z in Upstream(GraphOf(st.instances), x) && w in Upstream(GraphOf(st.instances), y)
    requires z in st.instances && w in st.instances && st.instances[z].binding.task == st.instances[w].binding.task
    ensures z == w
  {
    hide GraphOk, Descends, Good, KeysUnique, AllPlaced, Typed, AtOrAbove, LeadsToSeed, HasInScope;
    GraphParts(st);
    var g := GraphOf(st.instances);
    FilledUpstream(st, s, d, x, z);
    FilledUpstream(st, s, e, y, w);
    ShareBy(st.tasks, st.scopes[s].seeds, g[z].task, d, e);
    if g[z].scope == BASE && g[w].scope == BASE {
      AtMostOneInBase(st.tasks, st.scopes, g, z, w);
    } else if g[z].scope == s && g[w].scope == s {
      GoodUnique(st.tasks, st.scopes, g, z, w);
    }
  }

  lemma FilledCoherent(st: State, s: ScopeId, deps: map<TaskId, InstanceId>)
    requires GraphOk(st) && AllGood(st, s) && s != BASE && s in st.scopes && Closed(GraphOf(st.instances))
    requires forall d :: d in deps ==> Fills(st, s, d, deps[d])
    requires forall d, e {:trigger Apart(st, s, d, e)} :: d in deps && e in deps ==> Apart(st, s, d, e)
    ensures DepsIn(GraphOf(st.instances), deps)
    ensures Coherent(GraphOf(st.instances), UpstreamOf(GraphOf(st.instances), deps))
  {
    hide GraphOk, AllGood, Apart, HasInScope, LeadsToSeed, Upstream;
    var g := GraphOf(st.instances);
    forall x, y | x in UpstreamOf(g, deps) && y in UpstreamOf(g, deps) && SameTask(g, x, y)
      ensures x == y
    {
      var d :| d in deps && x in Upstream(g, deps[d]);
      var e :| e in deps && y in Upstream(g, deps[e]);
      FilledAlike(st, s, d, e, deps[d], deps[e], x, y);
    }
  }

  // A choice for each dependency: what its owner's choice was, else what fills it.
  ghost predicate FillsFor(st: State, t: TaskId, s: ScopeId, d: TaskId, x: InstanceId) {
    Fills(st, s, d, x) && (ControlOwner(st.tasks, t) == Some(d) ==> OwnerChose(st, t, s, d, x))
  }

  lemma FillerExists(st: State, t: TaskId, s: ScopeId, d: TaskId)
    requires s in st.scopes && Fillable(st, s, d) && OwnerReady(st, t, s)
    ensures exists x :: FillsFor(st, t, s, d, x)
  {
    hide LeadsToSeed, Selects;
    var g := GraphOf(st.instances);
    if ControlOwner(st.tasks, t) == Some(d) {
      var y :| OwnerChose(st, t, s, d, y);
      assert g[y].task == d && g[y].scope == s;
      assert FillsFor(st, t, s, d, y);
    } else if HasInScope(g, d, s) {
      var y :| y in g && g[y].task == d && g[y].scope == s;
      assert FillsFor(st, t, s, d, y);
    } else {
      var y :| y in g && g[y].task == d && g[y].scope == BASE;
      assert FillsFor(st, t, s, d, y);
    }
  }

  ghost function Fillers(st: State, t: TaskId, s: ScopeId, ds: set<TaskId>): (deps: map<TaskId, InstanceId>)
    requires forall d :: d in ds ==> exists x :: FillsFor(st, t, s, d, x)
    ensures deps.Keys == ds && forall d :: d in deps ==> FillsFor(st, t, s, d, deps[d])
  {
    map d | d in ds :: (var x :| FillsFor(st, t, s, d, x); x)
  }

  // Under the guard there is a valid binding that takes something early...
  lemma EarlyBinding(st: State, t: TaskId, s: ScopeId) returns (deps: map<TaskId, InstanceId>)
    requires Inv(st) && AllGood(st, s) && BindsEarly(st, t, s)
    ensures Closed(GraphOf(st.instances)) && TakesEarly(st, s, deps)
    ensures IsCandidate(st.tasks, st.scopes, GraphOf(st.instances), st.results, t, s, deps)
  {
    hide Inv, GraphOk, AllGood, Fillable, OwnerReady, Apart, FillsFor, Descends, HasInScope, Coherent;
    InvParts(st);
    ClosedRun(st);
    forall d | d in DepTasks(st.tasks[t])
      ensures exists x :: FillsFor(st, t, s, d, x)
    {
      FillerExists(st, t, s, d);
    }
    deps := Fillers(st, t, s, DepTasks(st.tasks[t]));
    forall d | d in deps
      ensures Fills(st, s, d, deps[d])
    {
      FillerFills(st, t, s, d, deps[d]);
    }
    FilledCoherent(st, s, deps);
    FillersFit(st, t, s, deps);
    var d :| d in DepTasks(st.tasks[t]) && Late(st, s, d);
    LateFilled(st, s, d, deps[d]);
  }

  lemma FillerFills(st: State, t: TaskId, s: ScopeId, d: TaskId, x: InstanceId)
    requires FillsFor(st, t, s, d, x)
    ensures Fills(st, s, d, x)
  {
  }

  lemma LateFilled(st: State, s: ScopeId, d: TaskId, x: InstanceId)
    requires s in st.scopes && Late(st, s, d) && Fills(st, s, d, x)
    ensures TakenEarly(st, s, d, x)
  {
    hide Descends, HasInScope, LeadsToSeed;
  }

  lemma FillersFit(st: State, t: TaskId, s: ScopeId, deps: map<TaskId, InstanceId>)
    requires t in st.tasks && s in st.scopes && s != BASE && Closed(GraphOf(st.instances))
    requires t in st.scopes[s].seeds ||
      exists d :: d in DepTasks(st.tasks[t]) && HasInScope(GraphOf(st.instances), d, s)
    requires deps.Keys == DepTasks(st.tasks[t]) && forall d :: d in deps ==> FillsFor(st, t, s, d, deps[d])
    requires DepsIn(GraphOf(st.instances), deps)
    requires Coherent(GraphOf(st.instances), UpstreamOf(GraphOf(st.instances), deps))
    ensures IsCandidate(st.tasks, st.scopes, GraphOf(st.instances), st.results, t, s, deps)
  {
    hide Coherent, Selects, LeadsToSeed, CanReuseBase, ControlOwner, UpstreamOf;
    var g := GraphOf(st.instances);
    forall d | d in deps
      ensures MayFill(st.tasks, st.scopes, g, st.results, t, s, d, deps[d])
      ensures HasInScope(g, d, s) ==> g[deps[d]].scope == s
    {
      assert FillsFor(st, t, s, d, deps[d]);
      ReusableLeads(st.tasks, st.scopes, s, d);
    }
    assert Anchored(st.scopes, g, t, s, deps);
  }

  // ...and without it there is none.
  lemma EarlyGuard(st: State, t: TaskId, s: ScopeId, deps: map<TaskId, InstanceId>)
    requires Inv(st) && AllGood(st, s) && s != BASE && Closed(GraphOf(st.instances)) && TakesEarly(st, s, deps)
    requires IsCandidate(st.tasks, st.scopes, GraphOf(st.instances), st.results, t, s, deps)
    ensures BindsEarly(st, t, s)
  {
    hide Inv, GraphOk, AllGood, Fillable, OwnerReady, Apart, Coherent, HasInScope, IsCandidate, Fills, TakenEarly, Late,
      UpstreamOf, Closed, BindsEarly, DepTasks;
    InvParts(st);
    CandidateKnown(st, t, s, deps);
    CandidateOwner(st, t, s, deps);
    forall d, e | d in deps && e in deps
      ensures Apart(st, s, d, e)
    {
      CoherentApart(st, s, deps, d, e);
    }
    var d :| d in deps && TakenEarly(st, s, d, deps[d]);
    TakenIsLate(st, s, d, deps[d]);
    CandidateAnchored(st, t, s, deps);
    GuardFrom(st, t, s, deps, d);
  }

  lemma GuardFrom(st: State, t: TaskId, s: ScopeId, deps: map<TaskId, InstanceId>, d: TaskId)
    requires t in st.tasks && s in st.scopes && s != BASE && OwnerReady(st, t, s) && deps.Keys == DepTasks(st.tasks[t])
    requires forall e :: e in deps ==> Fillable(st, s, e)
    requires t in st.scopes[s].seeds || exists e :: e in deps && HasInScope(GraphOf(st.instances), e, s)
    requires d in deps && Late(st, s, d)
    requires forall e, f {:trigger Apart(st, s, e, f)} :: e in deps && f in deps ==> Apart(st, s, e, f)
    ensures BindsEarly(st, t, s)
  {
    hide OwnerReady, DepTasks, Fillable, HasInScope, Late, Apart, GraphOf;
  }

  lemma CandidateKnown(st: State, t: TaskId, s: ScopeId, deps: map<TaskId, InstanceId>)
    requires Closed(GraphOf(st.instances)) && s != BASE
    requires IsCandidate(st.tasks, st.scopes, GraphOf(st.instances), st.results, t, s, deps)
    ensures t in st.tasks && s in st.scopes && deps.Keys == DepTasks(st.tasks[t])
    ensures DepsIn(GraphOf(st.instances), deps)
    ensures Coherent(GraphOf(st.instances), UpstreamOf(GraphOf(st.instances), deps))
    ensures forall d :: d in deps ==> Fills(st, s, d, deps[d]) && Fillable(st, s, d)
  {
    hide Coherent, MayFill, Fills, Fillable, UpstreamOf, HasInScope;
    forall d | d in deps
      ensures Fills(st, s, d, deps[d]) && Fillable(st, s, d)
    {
      CandidateFills(st, t, s, d, deps[d]);
    }
  }

  lemma TakenIsLate(st: State, s: ScopeId, d: TaskId, x: InstanceId)
    requires s in st.scopes && s != BASE && TakenEarly(st, s, d, x) && Fills(st, s, d, x)
    ensures Late(st, s, d)
  {
    hide Descends, HasInScope, LeadsToSeed;
  }

  lemma CandidateFills(st: State, t: TaskId, s: ScopeId, d: TaskId, x: InstanceId)
    requires s in st.scopes && s != BASE && MayFill(st.tasks, st.scopes, GraphOf(st.instances), st.results, t, s, d, x)
    ensures Fills(st, s, d, x) && Fillable(st, s, d)
  {
    hide Selects, LeadsToSeed, CanReuseBase;
    ReusableLeads(st.tasks, st.scopes, s, d);
  }

  lemma CandidateOwner(st: State, t: TaskId, s: ScopeId, deps: map<TaskId, InstanceId>)
    requires Inv(st) && Closed(GraphOf(st.instances))
    requires IsCandidate(st.tasks, st.scopes, GraphOf(st.instances), st.results, t, s, deps)
    ensures OwnerReady(st, t, s)
  {
    hide Inv, Coherent, Selects, ControlOwner, HasInScope, CanReuseBase, RoutesOk, GraphOk, ControlOk, InstancesOk,
      StoreOk;
    InvParts(st);
    if ControlOwner(st.tasks, t).Some? {
      var c := ControlOwner(st.tasks, t).value;
      OwnerDependency(st.tasks, t);
      assert OwnerChose(st, t, s, c, deps[c]);
    }
  }

  lemma OwnerDependency(tasks: Tasks, t: TaskId)
    requires ValidTasks(tasks) && t in tasks && ControlOwner(tasks, t).Some?
    ensures ControlOwner(tasks, t).value in DepTasks(tasks[t])
  {
    hide Acyclic;
    OwnerIsDependency(tasks, t);
  }

  lemma CandidateAnchored(st: State, t: TaskId, s: ScopeId, deps: map<TaskId, InstanceId>)
    requires Closed(GraphOf(st.instances)) && s != BASE
    requires IsCandidate(st.tasks, st.scopes, GraphOf(st.instances), st.results, t, s, deps)
    ensures t in st.tasks && s in st.scopes && deps.Keys == DepTasks(st.tasks[t])
    ensures t in st.scopes[s].seeds || exists d :: d in deps && HasInScope(GraphOf(st.instances), d, s)
  {
    hide Coherent, Selects, CanReuseBase, ControlOwner;
    var g := GraphOf(st.instances);
    if t !in st.scopes[s].seeds {
      var d :| d in deps && g[deps[d]].scope == s;
      assert MayFill(st.tasks, st.scopes, g, st.results, t, s, d, deps[d]);
      assert HasInScope(g, d, s);
    }
  }

  // A task that both need would be instantiated twice above them.
  lemma CoherentApart(st: State, s: ScopeId, deps: map<TaskId, InstanceId>, d: TaskId, e: TaskId)
    requires GraphOk(st) && AllGood(st, s) && s != BASE && s in st.scopes && Closed(GraphOf(st.instances))
    requires d in deps && e in deps && Fills(st, s, d, deps[d]) && Fills(st, s, e, deps[e])
    requires DepsIn(GraphOf(st.instances), deps)
    requires Coherent(GraphOf(st.instances), UpstreamOf(GraphOf(st.instances), deps))
    ensures Apart(st, s, d, e)
  {
    hide GraphOk, AllGood, Descends, AtOrAbove, HasInScope, Coherent, UpstreamOf, Fills;
    forall u
      ensures Descends(st.tasks, st.scopes[s].seeds, u) && AtOrAbove(st.tasks, u, d) && AtOrAbove(st.tasks, u, e) ==>
        (HasInScope(GraphOf(st.instances), d, s) <==> HasInScope(GraphOf(st.instances), e, s))
    {
      SharedAlike(st, s, deps, d, e, u);
    }
  }

  lemma SharedAlike(st: State, s: ScopeId, deps: map<TaskId, InstanceId>, d: TaskId, e: TaskId, u: TaskId)
    requires GraphOk(st) && AllGood(st, s) && s != BASE && s in st.scopes && Closed(GraphOf(st.instances))
    requires d in deps && e in deps && Fills(st, s, d, deps[d]) && Fills(st, s, e, deps[e])
    requires DepsIn(GraphOf(st.instances), deps)
    requires Coherent(GraphOf(st.instances), UpstreamOf(GraphOf(st.instances), deps))
    ensures Descends(st.tasks, st.scopes[s].seeds, u) && AtOrAbove(st.tasks, u, d) && AtOrAbove(st.tasks, u, e) ==>
      (HasInScope(GraphOf(st.instances), d, s) <==> HasInScope(GraphOf(st.instances), e, s))
  {
    hide GraphOk, AllGood, Descends, LeadsToSeed, AtOrAbove, Upstream, HasInScope;
    var g := GraphOf(st.instances);
    if Descends(st.tasks, st.scopes[s].seeds, u) && AtOrAbove(st.tasks, u, d) && AtOrAbove(st.tasks, u, e) {
      var z := InstanceAbove(st, deps[d], u);
      var w := InstanceAbove(st, deps[e], u);
      FilledUpstream(st, s, d, deps[d], z);
      FilledUpstream(st, s, e, deps[e], w);
      assert SameTask(g, z, w) && z in UpstreamOf(g, deps) && w in UpstreamOf(g, deps);
    }
  }

  lemma InstanceAbove(st: State, x: InstanceId, u: TaskId) returns (z: InstanceId)
    requires GraphOk(st) && x in st.instances && AtOrAbove(st.tasks, u, st.instances[x].binding.task)
    ensures Closed(GraphOf(st.instances)) && z in Upstream(GraphOf(st.instances), x)
    ensures z in st.instances && st.instances[z].binding.task == u
  {
    hide GraphOk, IsAncestor, AllPlaced, KeysUnique;
    GraphParts(st);
    var g := GraphOf(st.instances);
    if u == g[x].task {
      z := x;
    } else {
      LineageTasks(st.tasks, g, x);
      AncestorKnown(st.tasks, u, g[x].task);
      assert u in TasksOf(g, Upstream(g, x));
      z :| z in Upstream(g, x) && z in g && g[z].task == u;
    }
  }

  lemma AncestorKnown(tasks: Tasks, a: TaskId, t: TaskId)
    requires DepsExist(tasks) && IsAncestor(tasks, a, t) && t in tasks
    ensures a in Ancestors(tasks, t)
  {
    ReachesStaysIn(DependsMap(tasks), tasks.Keys, t, a);
  }

  // ---------- one visit ----------

  // What is new are instances of t in s, by bindings that were valid at the start.
  ghost predicate NewFrom(start: State, st: State, t: TaskId, s: ScopeId) {
    forall i :: i in st.instances && i !in start.instances ==> IsNewFrom(start, t, s, st.instances[i].binding)
  }

  ghost predicate IsNewFrom(start: State, t: TaskId, s: ScopeId, b: Binding) {
    b.task == t && b.scope == s && Closed(GraphOf(start.instances)) &&
    IsCandidate(start.tasks, start.scopes, GraphOf(start.instances), start.results, t, s, b.deps)
  }

  lemma GraphGrows(before: State, after: State)
    requires GrowsInstances(before, after)
    ensures Extends(GraphOf(before.instances), GraphOf(after.instances))
  {
  }

  lemma GoodGrows(tasks: Tasks, scopes: map<ScopeId, InputScope>, g: Graph, g': Graph, i: InstanceId)
    requires Closed(g) && Closed(g') && Extends(g, g') && i in g
    ensures Good(tasks, scopes, g, i) <==> Good(tasks, scopes, g', i)
  {
    hide Descends;
    UpstreamExtends(g, g', i);
    forall z | z in Upstream(g, i)
      ensures z in g
    {
      UpstreamPresent(g, i, z);
    }
  }

  // After a visit of t the iteration is still free of early bindings exactly if the guard did not hold.
  lemma VisitIff(before: State, after: State, t: TaskId, s: ScopeId)
    requires Inv(before) && Inv(after) && s in before.scopes && s != BASE && AllGood(before, s)
    requires GrowsInstances(before, after) && NewFrom(before, after, t, s) && Filled(before, after, t, s)
    ensures AllGood(after, s) <==> !BindsEarly(before, t, s)
  {
    hide Inv, AllGood, BindsEarly, Filled, NewFrom;
    if BindsEarly(before, t, s) {
      EarlyMade(before, after, t, s);
    } else {
      forall i | i in after.instances && after.instances[i].binding.scope == s
        ensures Good(after.tasks, after.scopes, GraphOf(after.instances), i)
      {
        StillGood(before, after, t, s, i);
      }
      AllAreGood(after, s);
    }
  }

  // Being visited before a dependency that the iteration makes anew does not suffice: t is spared if it also
  // depends on something made anew already that this dependency needs too.
  lemma VisitedFirstYetSpared(before: State, after: State, t: TaskId, s: ScopeId, d: TaskId, e: TaskId)
    requires Inv(before) && Inv(after) && s in before.scopes && s != BASE && AllGood(before, s)
    requires GrowsInstances(before, after) && NewFrom(before, after, t, s) && Filled(before, after, t, s)
    requires t in before.tasks && d in DepTasks(before.tasks[t]) && e in DepTasks(before.tasks[t])
    requires Descends(before.tasks, before.scopes[s].seeds, d) && IsAncestor(before.tasks, d, e)
    requires HasInScope(GraphOf(before.instances), d, s) && !HasInScope(GraphOf(before.instances), e, s)
    ensures AllGood(after, s)
  {
    hide Inv, AllGood, Filled, NewFrom, Descends, IsAncestor, HasInScope, Fillable, OwnerReady, Late;
    ShareBy(before.tasks, before.scopes[s].seeds, d, d, e);
    assert !Apart(before, s, e, d);
    VisitIff(before, after, t, s);
  }

  lemma AllAreGood(st: State, s: ScopeId)
    requires forall i :: i in st.instances && st.instances[i].binding.scope == s ==>
      Good(st.tasks, st.scopes, GraphOf(st.instances), i)
    ensures AllGood(st, s)
  {
  }

  lemma EarlyMade(before: State, after: State, t: TaskId, s: ScopeId)
    requires Inv(before) && Inv(after) && AllGood(before, s) && BindsEarly(before, t, s)
    requires GrowsInstances(before, after) && Filled(before, after, t, s)
    ensures !AllGood(after, s)
  {
    hide Inv, AllGood, IsCandidate, KeysOfInstances, Descends, TakenEarly, GrowsInstances, Apart, Fillable, Late,
      OwnerReady, HasInScope;
    var deps := EarlyBinding(before, t, s);
    var i := InstanceOfKey(after, t, deps, s);
    var d :| d in deps && TakenEarly(before, s, d, deps[d]);
    ClosedRun(after);
    CandidateTyped(before, t, s, deps, d);
    TakenGrows(before, after, s, d, deps[d]);
    ScopesSame(before, after);
    NotGood(after, s, i, d, deps[d]);
  }

  lemma CandidateTyped(st: State, t: TaskId, s: ScopeId, deps: map<TaskId, InstanceId>, d: TaskId)
    requires Closed(GraphOf(st.instances)) && d in deps
    requires IsCandidate(st.tasks, st.scopes, GraphOf(st.instances), st.results, t, s, deps)
    ensures deps[d] in st.instances && st.instances[deps[d]].binding.task == d
  {
    hide Coherent, Selects, CanReuseBase, HasInScope;
    assert MayFill(st.tasks, st.scopes, GraphOf(st.instances), st.results, t, s, d, deps[d]);
  }

  lemma NotGood(st: State, s: ScopeId, i: InstanceId, d: TaskId, x: InstanceId)
    requires Closed(GraphOf(st.instances)) && s != BASE && s in st.scopes
    requires i in st.instances && st.instances[i].binding.scope == s
    requires d in st.instances[i].binding.deps && st.instances[i].binding.deps[d] == x
    requires x in st.instances && st.instances[x].binding.task == d && TakenEarly(st, s, d, x)
    ensures !AllGood(st, s)
  {
    hide Descends;
    var g := GraphOf(st.instances);
    assert g[i].deps[d] == x && x in Upstream(g, x) && x in Upstream(g, i);
    assert !Good(st.tasks, st.scopes, g, i);
  }

  lemma TakenGrows(before: State, after: State, s: ScopeId, d: TaskId, x: InstanceId)
    requires GrowsInstances(before, after) && s in before.scopes && TakenEarly(before, s, d, x)
    ensures TakenEarly(after, s, d, x) && x in after.instances && after.instances[x] == before.instances[x]
  {
    hide Descends;
    assert GraphOf(after.instances)[x] == GraphOf(before.instances)[x];
  }

  lemma StillGood(before: State, after: State, t: TaskId, s: ScopeId, i: InstanceId)
    requires Inv(before) && Inv(after) && s in before.scopes && s != BASE && AllGood(before, s)
    requires !BindsEarly(before, t, s)
    requires GrowsInstances(before, after) && NewFrom(before, after, t, s)
    requires i in after.instances && after.instances[i].binding.scope == s
    ensures Good(after.tasks, after.scopes, GraphOf(after.instances), i)
  {
    hide Inv, BindsEarly, IsCandidate, Good, TakesEarly;
    var g, g' := GraphOf(before.instances), GraphOf(after.instances);
    ClosedRun(before);
    ClosedRun(after);
    GraphGrows(before, after);
    if i in before.instances {
      GoodGrows(after.tasks, after.scopes, g, g', i);
    } else {
      var deps := after.instances[i].binding.deps;
      assert IsNewFrom(before, t, s, after.instances[i].binding);
      if TakesEarly(before, s, deps) {
        EarlyGuard(before, t, s, deps);
      }
      NewIsGood(before, after, t, s, i);
    }
  }

  lemma NewIsGood(before: State, after: State, t: TaskId, s: ScopeId, i: InstanceId)
    requires Inv(before) && Closed(GraphOf(after.instances)) && s in before.scopes && s != BASE && AllGood(before, s)
    requires GrowsInstances(before, after) && i in after.instances
    requires IsNewFrom(before, t, s, after.instances[i].binding)
    requires !TakesEarly(before, s, after.instances[i].binding.deps)
    ensures Good(after.tasks, after.scopes, GraphOf(after.instances), i)
  {
    hide Inv, GraphOk, AllGood, IsCandidate, Descends, Fillable, Coherent, Fills, HasInScope, UpstreamOf,
      GrowsInstances, TakenEarly, Upstream, Closed;
    var g, g', deps := GraphOf(before.instances), GraphOf(after.instances), after.instances[i].binding.deps;
    InvParts(before);
    ScopesSame(before, after);
    CandidateKnown(before, t, s, deps);
    assert g'[i] == after.instances[i].binding;
    forall z | z in Upstream(g', i) && z in g' && Descends(before.tasks, before.scopes[s].seeds, g'[z].task)
      ensures g'[z].scope == s
    {
      if z != i {
        var d := UpstreamVia(g', i, z);
        NewUpstream(before, after, s, d, deps[d], z);
      }
    }
  }

  lemma UpstreamVia(g: Graph, i: InstanceId, z: InstanceId) returns (d: TaskId)
    requires Closed(g) && i in g && z in Upstream(g, i) && z != i
    ensures d in g[i].deps && g[i].deps[d] in g && z in Upstream(g, g[i].deps[d])
  {
    d :| d in g[i].deps && z in Upstream(g, g[i].deps[d]);
  }

  lemma ScopesSame(before: State, after: State)
    requires GrowsInstances(before, after)
    ensures after.scopes == before.scopes && after.tasks == before.tasks
  {
  }

  lemma NewUpstream(before: State, after: State, s: ScopeId, d: TaskId, x: InstanceId, z: InstanceId)
    requires GraphOk(before) && AllGood(before, s) && s != BASE && Fills(before, s, d, x)
    requires !TakenEarly(before, s, d, x)
    requires GrowsInstances(before, after) && Closed(GraphOf(before.instances)) && Closed(GraphOf(after.instances))
    requires x in after.instances && z in Upstream(GraphOf(after.instances), x) && z in after.instances
    ensures Descends(after.tasks, after.scopes[s].seeds, after.instances[z].binding.task) ==>
      after.instances[z].binding.scope == s
  {
    hide GraphOk, AllGood, Descends, HasInScope, LeadsToSeed, TakenEarly;
    var g, g' := GraphOf(before.instances), GraphOf(after.instances);
    GraphGrows(before, after);
    UpstreamExtends(g, g', x);
    UpstreamPresent(g, x, z);
    FilledNotEarly(before, s, d, x, z);
    assert g'[z] == g[z];
  }

  // Upstream of what is not taken early, all that the iteration makes anew lies in s.
  lemma FilledNotEarly(st: State, s: ScopeId, d: TaskId, x: InstanceId, z: InstanceId)
    requires GraphOk(st) && AllGood(st, s) && s != BASE && Fills(st, s, d, x) && !TakenEarly(st, s, d, x)
    requires Closed(GraphOf(st.instances)) && z in Upstream(GraphOf(st.instances), x) && z in st.instances
    ensures Descends(st.tasks, st.scopes[s].seeds, st.instances[z].binding.task) ==> st.instances[z].binding.scope == s
  {
    hide GraphOk, AllGood, Descends, HasInScope, LeadsToSeed, Upstream, IsAncestor;
    FilledUpstream(st, s, d, x, z);
    var u := st.instances[z].binding.task;
    if Descends(st.tasks, st.scopes[s].seeds, u) && u != d {
      DescendsOn(st.tasks, st.scopes[s].seeds, u, d);
    }
  }

  lemma NothingFrom(st: State, t: TaskId, s: ScopeId)
    ensures NewFrom(st, st, t, s)
  {
  }

  lemma NewFromOne(start: State, before: State, id: InstanceId, b: Binding, after: State)
    requires NewFrom(start, before, b.task, b.scope) && IsNewFrom(start, b.task, b.scope, b)
    requires after.instances == before.instances[id := NewInstance(b)]
    ensures NewFrom(start, after, b.task, b.scope)
  {
    hide IsNewFrom;
  }

  lemma NewFromAt(start: State, st: State, t: TaskId, s: ScopeId)
    requires NewFrom(start, st, t, s)
    ensures NewOnlyAt(start, st, {t}, {s})
  {
    hide IsCandidate;
  }
}
