// What an iteration makes anew and what it takes from the base scope.
module Iterations {
  import opened Domain
  import opened Closure
  import opened TaskGraph
  import opened InstanceGraph

  // ---------- tasks and seeds ----------

  // u is a seed or depends on one.
  ghost predicate Descends(tasks: Tasks, seeds: seq<TaskId>, u: TaskId) {
    u in seeds || exists a :: a in seeds && IsAncestor(tasks, a, u)
  }

  // Some seed depends on u.
  ghost predicate LeadsToSeed(tasks: Tasks, seeds: seq<TaskId>, u: TaskId) {
    exists b :: b in seeds && IsAncestor(tasks, u, b)
  }

  // The tasks an iteration makes anew although a base instance of them could be reused.
  ghost predicate Between(tasks: Tasks, seeds: seq<TaskId>, u: TaskId) {
    Descends(tasks, seeds, u) && LeadsToSeed(tasks, seeds, u)
  }

  lemma DescendsOn(tasks: Tasks, seeds: seq<TaskId>, u: TaskId, t: TaskId)
    requires Descends(tasks, seeds, u) && IsAncestor(tasks, u, t)
    ensures Descends(tasks, seeds, t)
  {
    hide IsAncestor;
    if u !in seeds {
      var a :| a in seeds && IsAncestor(tasks, a, u);
      AncestorTransitive(tasks, a, u, t);
    }
  }

  lemma LeadsOnUp(tasks: Tasks, seeds: seq<TaskId>, u: TaskId, t: TaskId)
    requires IsAncestor(tasks, u, t) && (t in seeds || LeadsToSeed(tasks, seeds, t))
    ensures LeadsToSeed(tasks, seeds, u)
  {
    hide IsAncestor;
    if t !in seeds {
      var b :| b in seeds && IsAncestor(tasks, t, b);
      AncestorTransitive(tasks, u, t, b);
    }
  }

  // Whoever depends on a seed without being one does so through a dependency that descends from a seed.
  lemma DescendsThrough(tasks: Tasks, seeds: seq<TaskId>, t: TaskId) returns (e: TaskId)
    requires DepsExist(tasks) && t in tasks && t !in seeds && Descends(tasks, seeds, t)
    ensures e in DepTasks(tasks[t]) && Descends(tasks, seeds, e)
  {
    hide Reaches;
    var a :| a in seeds && IsAncestor(tasks, a, t);
    e := ReachesUnfold(DependsMap(tasks), t, a);
    assert e == a || IsAncestor(tasks, a, e);
  }

  // Task u is d or upstream of it.
  ghost predicate AtOrAbove(tasks: Tasks, u: TaskId, d: TaskId) {
    u == d || IsAncestor(tasks, u, d)
  }

  // The iteration makes anew some task that both d and e need.
  ghost predicate Share(tasks: Tasks, seeds: seq<TaskId>, d: TaskId, e: TaskId) {
    exists u :: Descends(tasks, seeds, u) && AtOrAbove(tasks, u, d) && AtOrAbove(tasks, u, e)
  }

  lemma ShareBy(tasks: Tasks, seeds: seq<TaskId>, u: TaskId, d: TaskId, e: TaskId)
    ensures Descends(tasks, seeds, u) && AtOrAbove(tasks, u, d) && AtOrAbove(tasks, u, e) ==>
      Share(tasks, seeds, d, e) && Share(tasks, seeds, e, d)
  {
  }

  lemma SharedDescends(tasks: Tasks, seeds: seq<TaskId>, d: TaskId, e: TaskId)
    ensures Share(tasks, seeds, d, e) ==> Descends(tasks, seeds, d)
  {
    hide Descends, IsAncestor;
    if Share(tasks, seeds, d, e) {
      var u :| Descends(tasks, seeds, u) && AtOrAbove(tasks, u, d) && AtOrAbove(tasks, u, e);
      if u != d {
        DescendsOn(tasks, seeds, u, d);
      }
    }
  }

  // ---------- instances ----------

  lemma InScopeDescends(tasks: Tasks, scopes: map<ScopeId, InputScope>, g: Graph, x: InstanceId)
    requires DepsExist(tasks) && Typed(tasks, g) && AllPlaced(tasks, scopes, g) && x in g && g[x].scope != BASE
    ensures g[x].scope in scopes && Descends(tasks, scopes[g[x].scope].seeds, g[x].task)
  {
    hide IsAncestor;
    var p := DescendsFromSeed(tasks, scopes, g, x);
    var first := p[|p| - 1];
    if first != x {
      UpstreamTask(tasks, g, x, first);
    }
  }

  // Everything upstream that descends from a seed has been made anew in the scope of y.
  ghost predicate Good(tasks: Tasks, scopes: map<ScopeId, InputScope>, g: Graph, y: InstanceId) {
    Closed(g) && y in g && g[y].scope in scopes &&
    forall z :: z in Upstream(g, y) && z in g && Descends(tasks, scopes[g[y].scope].seeds, g[z].task) ==>
      g[z].scope == g[y].scope
  }

  lemma GoodUpstream(tasks: Tasks, scopes: map<ScopeId, InputScope>, g: Graph, y: InstanceId, z: InstanceId)
    requires Good(tasks, scopes, g, y) && z in Upstream(g, y) && z in g && g[z].scope == g[y].scope
    ensures Good(tasks, scopes, g, z)
  {
    UpstreamTransitive(g, y, z);
  }

  // At most one good instance for each task and scope.
  lemma {:induction false} GoodUnique(tasks: Tasks, scopes: map<ScopeId, InputScope>, g: Graph, i: InstanceId,
                                      j: InstanceId)
    requires DepsExist(tasks) && Typed(tasks, g) && AllPlaced(tasks, scopes, g) && KeysUnique(g)
    requires Good(tasks, scopes, g, i) && Good(tasks, scopes, g, j)
    requires g[i].scope != BASE && g[i].task == g[j].task && g[i].scope == g[j].scope
    ensures i == j
    decreases i
  {
    hide Descends, CanReuseBase;
    forall d | d in g[i].deps
      ensures d in g[j].deps && g[i].deps[d] == g[j].deps[d]
    {
      GoodDependency(tasks, scopes, g, i, d);
      GoodDependency(tasks, scopes, g, j, d);
      var x, y := g[i].deps[d], g[j].deps[d];
      if g[x].scope == BASE {
        AtMostOneInBase(tasks, scopes, g, x, y);
      } else {
        GoodUnique(tasks, scopes, g, x, y);
      }
    }
    assert BindingTyped(tasks, g, g[i]) && BindingTyped(tasks, g, g[j]);
    assert g[i].deps == g[j].deps;
    assert SameKey(g[i], g[j]);
  }

  // Where a good instance takes a dependency from is decided by the dependency's task.
  lemma GoodDependency(tasks: Tasks, scopes: map<ScopeId, InputScope>, g: Graph, i: InstanceId, d: TaskId)
    requires DepsExist(tasks) && Typed(tasks, g) && AllPlaced(tasks, scopes, g)
    requires Good(tasks, scopes, g, i) && g[i].scope != BASE && d in DepTasks(tasks[g[i].task])
    ensures d in g[i].deps && g[i].deps[d] in g && g[g[i].deps[d]].task == d
    ensures Descends(tasks, scopes[g[i].scope].seeds, d) ==>
      g[g[i].deps[d]].scope == g[i].scope && Good(tasks, scopes, g, g[i].deps[d])
    ensures !Descends(tasks, scopes[g[i].scope].seeds, d) ==> g[g[i].deps[d]].scope == BASE
  {
    hide Descends, CanReuseBase;
    var s := g[i].scope;
    assert BindingTyped(tasks, g, g[i]) && BindingPlaced(tasks, scopes, g, g[i]);
    var x := g[i].deps[d];
    assert DepPlaced(tasks, scopes, g, s, d, x);
    assert x in Upstream(g, x) && x in Upstream(g, i);
    if g[x].scope == s {
      InScopeDescends(tasks, scopes, g, x);
      GoodUpstream(tasks, scopes, g, i, x);
    }
  }

  // ---------- clean graphs ----------

  // No dependency between the seeds of the scope of b is taken from the base scope.
  ghost predicate CleanBinding(tasks: Tasks, scopes: map<ScopeId, InputScope>, g: Graph, b: Binding) {
    b.scope != BASE && b.scope in scopes ==> TakenAnew(tasks, scopes[b.scope].seeds, g, b)
  }

  ghost predicate TakenAnew(tasks: Tasks, seeds: seq<TaskId>, g: Graph, b: Binding) {
    forall d :: d in b.deps && b.deps[d] in g && Between(tasks, seeds, d) ==> g[b.deps[d]].scope == b.scope
  }

  ghost predicate Clean(tasks: Tasks, scopes: map<ScopeId, InputScope>, g: Graph) {
    forall i :: i in g ==> CleanBinding(tasks, scopes, g, g[i])
  }

  lemma CleanAdded(tasks: Tasks, scopes: map<ScopeId, InputScope>, g: Graph, id: InstanceId, b: Binding)
    requires Closed(g) && Clean(tasks, scopes, g) && id !in g && DepsIn(g, b.deps) && CleanBinding(tasks, scopes, g, b)
    ensures Clean(tasks, scopes, g[id := b])
  {
    hide Between;
    var g' := g[id := b];
    forall i | i in g'
      ensures CleanBinding(tasks, scopes, g', g'[i])
    {
      if i != id {
        assert CleanBinding(tasks, scopes, g, g[i]) && g'[i] == g[i];
      }
    }
  }

  lemma {:induction false} CleanIsGood(tasks: Tasks, scopes: map<ScopeId, InputScope>, g: Graph, i: InstanceId)
    requires DepsExist(tasks) && Typed(tasks, g) && AllPlaced(tasks, scopes, g) && Clean(tasks, scopes, g)
    requires i in g && g[i].scope != BASE
    ensures Good(tasks, scopes, g, i)
    decreases i
  {
    hide Descends, LeadsToSeed;
    var s := g[i].scope;
    assert BindingPlaced(tasks, scopes, g, g[i]) && CleanBinding(tasks, scopes, g, g[i]);
    forall z | z in Upstream(g, i) && z in g && Descends(tasks, scopes[s].seeds, g[z].task)
      ensures g[z].scope == s
    {
      if z != i {
        var d :| d in g[i].deps && z in Upstream(g, g[i].deps[d]);
        BaseUpstreamDescends(tasks, g, scopes[s].seeds, g[i].deps[d], z);
        CleanDependency(tasks, scopes, g, i, d);
        CleanIsGood(tasks, scopes, g, g[i].deps[d]);
      }
    }
  }

  // In a clean graph a dependency that descends from a seed is taken from the scope itself.
  lemma CleanDependency(tasks: Tasks, scopes: map<ScopeId, InputScope>, g: Graph, i: InstanceId, d: TaskId)
    requires Typed(tasks, g) && AllPlaced(tasks, scopes, g) && Clean(tasks, scopes, g)
    requires i in g && g[i].scope != BASE && d in g[i].deps
    requires g[i].scope in scopes && g[i].deps[d] in g
    requires Descends(tasks, scopes[g[i].scope].seeds, g[g[i].deps[d]].task)
    ensures g[g[i].deps[d]].scope == g[i].scope
  {
    hide Descends, LeadsToSeed, CanReuseBase;
    assert BindingTyped(tasks, g, g[i]) && BindingPlaced(tasks, scopes, g, g[i]) &&
      CleanBinding(tasks, scopes, g, g[i]);
    assert DepPlaced(tasks, scopes, g, g[i].scope, d, g[i].deps[d]);
    ReusableLeads(tasks, scopes, g[i].scope, d);
  }

  lemma BaseUpstreamDescends(tasks: Tasks, g: Graph, seeds: seq<TaskId>, x: InstanceId, z: InstanceId)
    requires DepsExist(tasks) && Typed(tasks, g) && x in g && z in g && z in Upstream(g, x)
    requires Descends(tasks, seeds, g[z].task)
    ensures Descends(tasks, seeds, g[x].task)
  {
    hide Descends, IsAncestor;
    if z != x {
      UpstreamTask(tasks, g, x, z);
      DescendsOn(tasks, seeds, g[z].task, g[x].task);
    }
  }

  lemma ReusableLeads(tasks: Tasks, scopes: map<ScopeId, InputScope>, s: ScopeId, d: TaskId)
    requires s in scopes
    ensures CanReuseBase(tasks, scopes, s, d) <==> LeadsToSeed(tasks, scopes[s].seeds, d)
  {
  }

  // In a clean graph each task has at most one instance in each scope.
  lemma CleanUnique(tasks: Tasks, scopes: map<ScopeId, InputScope>, g: Graph, i: InstanceId, j: InstanceId)
    requires DepsExist(tasks) && Typed(tasks, g) && AllPlaced(tasks, scopes, g) && KeysUnique(g)
    requires Clean(tasks, scopes, g)
    requires i in g && j in g && g[i].task == g[j].task && g[i].scope == g[j].scope
    ensures i == j
  {
    hide Good, Clean;
    if g[i].scope == BASE {
      AtMostOneInBase(tasks, scopes, g, i, j);
    } else {
      CleanIsGood(tasks, scopes, g, i);
      CleanIsGood(tasks, scopes, g, j);
      GoodUnique(tasks, scopes, g, i, j);
    }
  }

  // ---------- antichains ----------

  // No continue target of a controller is an ancestor of another.
  ghost predicate AntichainSeeds(tasks: Tasks) {
    forall c :: c in tasks ==> IsAntichain(tasks, ContinueTargets(tasks[c]))
  }

  ghost predicate IsAntichain(tasks: Tasks, seeds: seq<TaskId>) {
    forall a, b {:trigger IsAncestor(tasks, a, b)} :: a in seeds && b in seeds ==> !IsAncestor(tasks, a, b)
  }

  lemma NoneBetween(tasks: Tasks, seeds: seq<TaskId>, u: TaskId)
    requires IsAntichain(tasks, seeds)
    ensures !Between(tasks, seeds, u)
  {
    if Between(tasks, seeds, u) {
      var b :| b in seeds && IsAncestor(tasks, u, b);
      if u !in seeds {
        var a :| a in seeds && IsAncestor(tasks, a, u);
        AncestorTransitive(tasks, a, u, b);
      }
    }
  }

  lemma AntichainClean(tasks: Tasks, scopes: map<ScopeId, InputScope>, g: Graph)
    requires AntichainSeeds(tasks) && ScopesOk(tasks, scopes, g)
    ensures Clean(tasks, scopes, g)
  {
    hide Between, IsAntichain;
    forall i, d | i in g && g[i].scope in scopes && g[i].scope != BASE && d in g[i].deps
      ensures !Between(tasks, scopes[g[i].scope].seeds, d)
    {
      assert ScopeOk(tasks, scopes, g, g[i].scope);
      NoneBetween(tasks, scopes[g[i].scope].seeds, d);
    }
  }

  // An ancestor of a seed is never instantiated in the seeds' own scope.
  lemma SeedAncestorStaysInBase(tasks: Tasks, scopes: map<ScopeId, InputScope>, g: Graph, x: InstanceId)
    requires DepsExist(tasks) && Typed(tasks, g) && AllPlaced(tasks, scopes, g) && AntichainSeeds(tasks)
    requires x in g && g[x].scope != BASE && g[x].scope in scopes && ScopeOk(tasks, scopes, g, g[x].scope)
    ensures !CanReuseBase(tasks, scopes, g[x].scope, g[x].task)
  {
    hide Descends, LeadsToSeed, IsAntichain;
    var s := g[x].scope;
    InScopeDescends(tasks, scopes, g, x);
    ReusableLeads(tasks, scopes, s, g[x].task);
    NoneBetween(tasks, scopes[s].seeds, g[x].task);
  }
}
