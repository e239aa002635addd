// The graph of instances: what each is bound to, and what that says about everything upstream.
module InstanceGraph {
  import opened Domain
  import opened Closure
  import opened TaskGraph

  // ---------- upstream ----------

  ghost predicate DepsIn(g: Graph, deps: map<TaskId, InstanceId>) {
    forall d :: d in deps ==> deps[d] in g
  }

  // Dependencies are present and were created earlier.
  ghost predicate Closed(g: Graph) {
    forall i, d {:trigger g[i].deps[d]} {:trigger d in g[i].deps} ::
      i in g && d in g[i].deps ==> g[i].deps[d] in g && g[i].deps[d] < i
  }

  // The instance and everything it depends on, directly or not.
  ghost function Upstream(g: Graph, i: InstanceId): set<InstanceId>
    requires Closed(g) && i in g
    decreases i
  {
    {i} + set d, x | d in g[i].deps && x in Upstream(g, g[i].deps[d]) :: x
  }

  ghost function UpstreamOf(g: Graph, deps: map<TaskId, InstanceId>): set<InstanceId>
    requires Closed(g) && DepsIn(g, deps)
  {
    set d, x | d in deps && x in Upstream(g, deps[d]) :: x
  }

  lemma {:induction false} UpstreamPresent(g: Graph, i: InstanceId, x: InstanceId)
    requires Closed(g) && i in g && x in Upstream(g, i)
    ensures x in g && x <= i
    decreases i
  {
    if x != i {
      var d :| d in g[i].deps && x in Upstream(g, g[i].deps[d]);
      UpstreamPresent(g, g[i].deps[d], x);
    }
  }

  lemma {:induction false} UpstreamTransitive(g: Graph, i: InstanceId, x: InstanceId)
    requires Closed(g) && i in g && x in Upstream(g, i)
    ensures x in g && Upstream(g, x) <= Upstream(g, i)
    decreases i
  {
    UpstreamPresent(g, i, x);
    if x != i {
      var d :| d in g[i].deps && x in Upstream(g, g[i].deps[d]);
      UpstreamTransitive(g, g[i].deps[d], x);
    }
  }

  // g' has the instances of g, unchanged.
  ghost predicate Extends(g: Graph, g': Graph) {
    forall i :: i in g ==> i in g' && g'[i] == g[i]
  }

  lemma {:induction false} UpstreamExtends(g: Graph, g': Graph, i: InstanceId)
    requires Closed(g) && Closed(g') && Extends(g, g') && i in g
    ensures Upstream(g', i) == Upstream(g, i)
    decreases i
  {
    forall d | d in g[i].deps
      ensures Upstream(g', g[i].deps[d]) == Upstream(g, g[i].deps[d])
    {
      UpstreamExtends(g, g', g[i].deps[d]);
    }
  }

  lemma UpstreamOfExtends(g: Graph, g': Graph, deps: map<TaskId, InstanceId>)
    requires Closed(g) && Closed(g') && Extends(g, g') && DepsIn(g, deps)
    ensures UpstreamOf(g', deps) == UpstreamOf(g, deps)
  {
    forall d | d in deps
      ensures Upstream(g', deps[d]) == Upstream(g, deps[d])
    {
      UpstreamExtends(g, g', deps[d]);
    }
  }

  // ---------- typed graphs ----------

  // The dependencies of an instance are exactly those of its task.
  ghost predicate BindingTyped(tasks: Tasks, g: Graph, b: Binding) {
    b.task in tasks && b.deps.Keys == DepTasks(tasks[b.task]) &&
    forall d :: d in b.deps ==> b.deps[d] in g && g[b.deps[d]].task == d
  }

  ghost predicate Typed(tasks: Tasks, g: Graph) {
    Closed(g) && forall i :: i in g ==> BindingTyped(tasks, g, g[i])
  }

  // ---------- coherent sets ----------

  // No two instances of the same task.
  ghost predicate Coherent(g: Graph, S: set<InstanceId>) {
    forall x, y {:trigger SameTask(g, x, y)} :: x in S && y in S && SameTask(g, x, y) ==> x == y
  }

  ghost predicate SameTask(g: Graph, x: InstanceId, y: InstanceId) {
    x in g && y in g && g[x].task == g[y].task
  }

  ghost function TasksOf(g: Graph, S: set<InstanceId>): set<TaskId> {
    set x | x in S && x in g :: g[x].task
  }

  // ---------- well-formed graphs ----------

  // A base instance of d may stand in for a missing one of scope s.
  ghost predicate CanReuseBase(tasks: Tasks, scopes: map<ScopeId, InputScope>, s: ScopeId, d: TaskId)
    requires s in scopes
  {
    exists seed :: seed in scopes[s].seeds && IsAncestor(tasks, d, seed)
  }

  ghost predicate DepPlaced(tasks: Tasks, scopes: map<ScopeId, InputScope>, g: Graph, s: ScopeId, d: TaskId,
                            x: InstanceId)
    requires s in scopes && x in g
  {
    g[x].scope == s || (s != BASE && g[x].scope == BASE && CanReuseBase(tasks, scopes, s, d))
  }

  // Outside the base scope only seeds may hang on nothing of their own scope.
  ghost predicate Anchored(scopes: map<ScopeId, InputScope>, g: Graph, t: TaskId, s: ScopeId,
                           deps: map<TaskId, InstanceId>)
    requires s in scopes && DepsIn(g, deps)
  {
    s == BASE || t in scopes[s].seeds || exists d :: d in deps && g[deps[d]].scope == s
  }

  ghost predicate BindingPlaced(tasks: Tasks, scopes: map<ScopeId, InputScope>, g: Graph, b: Binding) {
    b.scope in scopes && DepsIn(g, b.deps) &&
    (forall d :: d in b.deps ==> DepPlaced(tasks, scopes, g, b.scope, d, b.deps[d])) &&
    Anchored(scopes, g, b.task, b.scope, b.deps)
  }

  // The tasks of the lineage that an instance of t bound to deps has.
  ghost function TasksAbove(g: Graph, t: TaskId, deps: map<TaskId, InstanceId>): set<TaskId>
    requires Closed(g) && DepsIn(g, deps)
  {
    {t} + TasksOf(g, UpstreamOf(g, deps))
  }

  ghost predicate OwnsOneOf(tasks: Tasks, ts: set<TaskId>, c: TaskId) {
    exists u :: u in ts && ControlOwner(tasks, u) == Some(c)
  }

  // The activation bindings are the lineage restricted to the controllers that own some task of it.
  ghost predicate ActivationOk(tasks: Tasks, g: Graph, b: Binding)
    requires Closed(g) && DepsIn(g, b.deps)
  {
    (forall c :: c in b.activation <==> OwnsOneOf(tasks, TasksAbove(g, b.task, b.deps), c)) &&
    forall c :: c in b.activation ==>
      b.activation[c] in UpstreamOf(g, b.deps) && b.activation[c] in g && g[b.activation[c]].task == c
  }

  ghost predicate BindingOk(tasks: Tasks, scopes: map<ScopeId, InputScope>, g: Graph, b: Binding)
    requires Closed(g)
  {
    BindingTyped(tasks, g, b) && BindingPlaced(tasks, scopes, g, b) &&
    Coherent(g, UpstreamOf(g, b.deps)) &&
    ActivationOk(tasks, g, b)
  }

  // Task, dependency bindings and scope identify an instance.
  ghost predicate SameKey(a: Binding, b: Binding) {
    a.task == b.task && a.deps == b.deps && a.scope == b.scope
  }

  ghost predicate KeysUnique(g: Graph) {
    forall i, j {:trigger SameKey(g[i], g[j])} :: i in g && j in g && SameKey(g[i], g[j]) ==> i == j
  }

  ghost predicate WellFormed(tasks: Tasks, scopes: map<ScopeId, InputScope>, g: Graph) {
    Closed(g) && KeysUnique(g) && forall i :: i in g ==> BindingOk(tasks, scopes, g, g[i])
  }

  // Every scope but the base comes from one loop controller instance of its parent scope.
  ghost predicate ScopesOk(tasks: Tasks, scopes: map<ScopeId, InputScope>, g: Graph) {
    BASE in scopes && scopes[BASE] == BASE_SCOPE &&
    (forall s :: s in scopes && s != BASE ==> ScopeOk(tasks, scopes, g, s)) &&
    forall s, s' {:trigger SameCreator(scopes, s, s')} :: SameCreator(scopes, s, s') ==> s == s'
  }

  ghost predicate SameCreator(scopes: map<ScopeId, InputScope>, s: ScopeId, s': ScopeId) {
    s in scopes && s' in scopes && s != BASE && s' != BASE && scopes[s].creator == scopes[s'].creator
  }

  ghost predicate ScopeOk(tasks: Tasks, scopes: map<ScopeId, InputScope>, g: Graph, s: ScopeId)
    requires s in scopes
  {
    var scope := scopes[s];
    scope.creator.Some? && scope.creator.value in g &&
    scope.parent == Some(g[scope.creator.value].scope) && scope.parent.value in scopes && scope.parent.value < s &&
    g[scope.creator.value].task in tasks && scope.seeds == ContinueTargets(tasks[g[scope.creator.value].task])
  }

  // ---------- growing the graph ----------

  lemma BindingOkExtends(tasks: Tasks, scopes: map<ScopeId, InputScope>, scopes': map<ScopeId, InputScope>, g: Graph,
                         g': Graph, b: Binding)
    requires Closed(g) && Closed(g') && Extends(g, g')
    requires forall s :: s in scopes ==> s in scopes' && scopes'[s] == scopes[s]
    requires BindingOk(tasks, scopes, g, b)
    ensures BindingOk(tasks, scopes', g', b)
  {
    UpstreamOfExtends(g, g', b.deps);
    forall x | x in UpstreamOf(g, b.deps)
      ensures x in g
    {
      var d :| d in b.deps && x in Upstream(g, b.deps[d]);
      UpstreamPresent(g, b.deps[d], x);
    }
    assert TasksOf(g', UpstreamOf(g', b.deps)) == TasksOf(g, UpstreamOf(g, b.deps));
    assert Coherent(g', UpstreamOf(g', b.deps)) by {
      assert forall x, y :: x in UpstreamOf(g, b.deps) && y in UpstreamOf(g, b.deps) && SameTask(g', x, y) ==>
        SameTask(g, x, y);
    }
    assert TasksAbove(g', b.task, b.deps) == TasksAbove(g, b.task, b.deps);
    assert ActivationOk(tasks, g', b);
    forall d | d in b.deps
      ensures DepPlaced(tasks, scopes', g', b.scope, d, b.deps[d])
    {
      assert DepPlaced(tasks, scopes, g, b.scope, d, b.deps[d]);
    }
  }

  lemma BoundEarlier(tasks: Tasks, scopes: map<ScopeId, InputScope>, g: Graph, b: Binding)
    requires Closed(g) && BindingOk(tasks, scopes, g, b)
    ensures DepsIn(g, b.deps)
  {
  }

  lemma AddedKeys(g: Graph, id: InstanceId, b: Binding)
    requires KeysUnique(g) && id !in g && forall i :: i in g ==> !SameKey(g[i], b)
    ensures KeysUnique(g[id := b])
  {
  }

  // A new instance with an unused key keeps the graph well formed.
  lemma AddBinding(tasks: Tasks, scopes: map<ScopeId, InputScope>, g: Graph, id: InstanceId, b: Binding)
    requires WellFormed(tasks, scopes, g) && BindingOk(tasks, scopes, g, b)
    requires id !in g && forall d :: d in b.deps ==> b.deps[d] < id
    requires forall i :: i in g ==> !SameKey(g[i], b)
    ensures WellFormed(tasks, scopes, g[id := b])
  {
    hide BindingOk, Coherent, KeysUnique;
    var g' := g[id := b];
    BoundEarlier(tasks, scopes, g, b);
    AddedKeys(g, id, b);
    forall i | i in g'
      ensures BindingOk(tasks, scopes, g', g'[i])
    {
      BindingOkExtends(tasks, scopes, scopes, g, g', g'[i]);
    }
  }

  lemma AddScope(tasks: Tasks, scopes: map<ScopeId, InputScope>, g: Graph, s: ScopeId, scope: InputScope)
    requires WellFormed(tasks, scopes, g) && s !in scopes
    ensures WellFormed(tasks, scopes[s := scope], g)
  {
    forall i | i in g
      ensures BindingOk(tasks, scopes[s := scope], g, g[i])
    {
      BindingOkExtends(tasks, scopes, scopes[s := scope], g, g, g[i]);
    }
  }

  // ---------- every lineage is a consistent cut ----------

  // Upstream of an instance are instances of its task and of each ancestor, and of no other task.
  lemma {:induction false} LineageTasks(tasks: Tasks, g: Graph, i: InstanceId)
    requires DepsExist(tasks) && Typed(tasks, g) && i in g
    ensures TasksOf(g, Upstream(g, i)) == {g[i].task} + Ancestors(tasks, g[i].task)
    decreases i, 1
  {
    UpstreamTasks(tasks, g, i, g[i]);
    assert TasksOf(g, Upstream(g, i)) == {g[i].task} + TasksOf(g, UpstreamOf(g, g[i].deps));
  }

  lemma {:induction false} UpstreamTasks(tasks: Tasks, g: Graph, bound: InstanceId, b: Binding)
    requires DepsExist(tasks) && Typed(tasks, g) && BindingTyped(tasks, g, b)
    requires forall d :: d in b.deps ==> b.deps[d] < bound
    ensures TasksOf(g, UpstreamOf(g, b.deps)) == Ancestors(tasks, b.task)
    decreases bound, 0
  {
    hide Ancestors;
    var above := AncestorMap(tasks, DepTasks(tasks[b.task]));
    forall d | d in b.deps
      ensures TasksOf(g, Upstream(g, b.deps[d])) == {d} + above[d]
    {
      LineageTasks(tasks, g, b.deps[d]);
    }
    TasksOfUnion(g, b.deps, above);
    AncestorsUnfold(tasks, b.task);
  }

  lemma TasksOfUnion(g: Graph, deps: map<TaskId, InstanceId>, above: map<TaskId, set<TaskId>>)
    requires Closed(g) && DepsIn(g, deps) && above.Keys == deps.Keys
    requires forall d :: d in deps ==> TasksOf(g, Upstream(g, deps[d])) == {d} + above[d]
    ensures TasksOf(g, UpstreamOf(g, deps)) == deps.Keys + JoinAll(above)
  {
    hide TasksOf, UpstreamOf, Upstream, JoinAll;
    TasksOfParts(g, deps);
    forall a
      ensures a in TasksOf(g, UpstreamOf(g, deps)) <==> a in deps.Keys + JoinAll(above)
    {
      JoinAllMember(above, a);
      if d :| d in deps && a in TasksOf(g, Upstream(g, deps[d])) {
        assert a in {d} + above[d];
      }
      if a in deps {
        assert a in TasksOf(g, Upstream(g, deps[a]));
      }
      if d :| d in above && a in above[d] {
        assert a in TasksOf(g, Upstream(g, deps[d]));
      }
    }
  }

  lemma TasksOfParts(g: Graph, deps: map<TaskId, InstanceId>)
    requires Closed(g) && DepsIn(g, deps)
    ensures forall a :: a in TasksOf(g, UpstreamOf(g, deps)) <==>
      exists d :: d in deps && a in TasksOf(g, Upstream(g, deps[d]))
  {
    hide Upstream;
    forall a
      ensures a in TasksOf(g, UpstreamOf(g, deps)) <==> exists d :: d in deps && a in TasksOf(g, Upstream(g, deps[d]))
    {
      if a in TasksOf(g, UpstreamOf(g, deps)) {
        var x :| x in UpstreamOf(g, deps) && x in g && g[x].task == a;
        var d :| d in deps && x in Upstream(g, deps[d]);
        assert a in TasksOf(g, Upstream(g, deps[d]));
      }
      if d :| d in deps && a in TasksOf(g, Upstream(g, deps[d])) {
        var x :| x in Upstream(g, deps[d]) && x in g && g[x].task == a;
        assert x in UpstreamOf(g, deps);
      }
    }
  }

  lemma JoinAllMember(above: map<TaskId, set<TaskId>>, a: TaskId)
    ensures a in JoinAll(above) <==> exists d :: d in above && a in above[d]
  {
  }

  lemma UpstreamTask(tasks: Tasks, g: Graph, i: InstanceId, x: InstanceId)
    requires DepsExist(tasks) && Typed(tasks, g) && i in g && x in g && x in UpstreamOf(g, g[i].deps)
    ensures IsAncestor(tasks, g[x].task, g[i].task)
  {
    hide IsAncestor;
    UpstreamTasks(tasks, g, i, g[i]);
    assert g[x].task in TasksOf(g, UpstreamOf(g, g[i].deps));
  }

  // The lineage of an instance is a cut: one instance of its task and one of each ancestor.
  lemma LineageIsCut(tasks: Tasks, scopes: map<ScopeId, InputScope>, g: Graph, i: InstanceId)
    requires ValidTasks(tasks) && WellFormed(tasks, scopes, g) && i in g
    ensures TasksOf(g, Upstream(g, i)) == {g[i].task} + Ancestors(tasks, g[i].task)
    ensures Coherent(g, Upstream(g, i))
  {
    hide Ancestors, IsAncestor, RoutesOk, ActivationOk, BindingPlaced;
    LineageTasks(tasks, g, i);
    assert BindingOk(tasks, scopes, g, g[i]);
    NotOwnAncestor(tasks, g[i].task);
    forall x | x in UpstreamOf(g, g[i].deps) && x in g
      ensures g[x].task != g[i].task
    {
      UpstreamTask(tasks, g, i, x);
    }
  }

  // Two upstream instances that depend on the same task are bound to the same instance of it.
  lemma DiamondsMeet(tasks: Tasks, scopes: map<ScopeId, InputScope>, g: Graph, i: InstanceId, x: InstanceId,
                     y: InstanceId, d: TaskId)
    requires ValidTasks(tasks) && WellFormed(tasks, scopes, g) && i in g
    requires x in Upstream(g, i) && y in Upstream(g, i) && x in g && y in g && d in g[x].deps && d in g[y].deps
    ensures g[x].deps[d] == g[y].deps[d]
  {
    LineageIsCut(tasks, scopes, g, i);
    UpstreamTransitive(g, i, x);
    UpstreamTransitive(g, i, y);
    assert g[x].deps[d] in Upstream(g, g[x].deps[d]) && g[y].deps[d] in Upstream(g, g[y].deps[d]);
    assert g[x].deps[d] in Upstream(g, x) && g[y].deps[d] in Upstream(g, y);
    assert SameTask(g, g[x].deps[d], g[y].deps[d]);
  }

  // ---------- iterations are isolated ----------

  ghost predicate AllPlaced(tasks: Tasks, scopes: map<ScopeId, InputScope>, g: Graph) {
    forall i :: i in g ==> BindingPlaced(tasks, scopes, g, g[i])
  }

  // The transitive form of DepPlaced.
  ghost predicate Visible(tasks: Tasks, scopes: map<ScopeId, InputScope>, g: Graph, s: ScopeId, x: InstanceId)
    requires s in scopes && x in g
  {
    g[x].scope == s || (s != BASE && g[x].scope == BASE && CanReuseBase(tasks, scopes, s, g[x].task))
  }

  // From scope s one sees s and, for ancestors of its seeds only, the base scope.
  lemma {:induction false} ScopeIsolation(tasks: Tasks, scopes: map<ScopeId, InputScope>, g: Graph, i: InstanceId,
                                          x: InstanceId)
    requires DepsExist(tasks) && Typed(tasks, g) && AllPlaced(tasks, scopes, g)
    requires i in g && x in Upstream(g, i)
    ensures x in g && g[i].scope in scopes && Visible(tasks, scopes, g, g[i].scope, x)
    decreases i
  {
    assert BindingPlaced(tasks, scopes, g, g[i]);
    UpstreamPresent(g, i, x);
    if x != i {
      var d :| d in g[i].deps && x in Upstream(g, g[i].deps[d]);
      var y := g[i].deps[d];
      ScopeIsolation(tasks, scopes, g, y, x);
      if g[y].scope != g[i].scope {
        BaseReuseExtends(tasks, scopes, g, g[i].scope, y, x);
      }
    }
  }

  // What lies upstream of a reusable base instance is reusable.
  lemma BaseReuseExtends(tasks: Tasks, scopes: map<ScopeId, InputScope>, g: Graph, s: ScopeId, y: InstanceId,
                         x: InstanceId)
    requires DepsExist(tasks) && Typed(tasks, g) && s in scopes
    requires y in g && x in g && x in Upstream(g, y) && CanReuseBase(tasks, scopes, s, g[y].task)
    ensures CanReuseBase(tasks, scopes, s, g[x].task)
  {
    hide IsAncestor;
    var seed :| seed in scopes[s].seeds && IsAncestor(tasks, g[y].task, seed);
    if x != y {
      UpstreamTask(tasks, g, y, x);
      AncestorTransitive(tasks, g[x].task, g[y].task, seed);
    }
  }

  // A path of dependencies that stays in one scope.
  ghost predicate ScopedPath(g: Graph, p: seq<InstanceId>, s: ScopeId) {
    (forall k :: 0 <= k < |p| ==> p[k] in g && g[p[k]].scope == s) &&
    forall k :: 0 <= k < |p| - 1 ==> p[k + 1] in g[p[k]].deps.Values
  }

  lemma ScopedPathPrepend(g: Graph, i: InstanceId, p: seq<InstanceId>, s: ScopeId)
    requires ScopedPath(g, p, s) && |p| >= 1 && i in g && g[i].scope == s && p[0] in g[i].deps.Values
    ensures ScopedPath(g, [i] + p, s)
  {
    var q := [i] + p;
    forall k | 0 <= k < |q| - 1
      ensures q[k] in g && q[k + 1] in g[q[k]].deps.Values
    {
      assert q[k + 1] == p[k];
      if k > 0 {
        assert q[k] == p[k - 1];
      }
    }
  }

  // Every instance outside the base scope descends, inside its scope, from a seed of that scope.
  lemma {:induction false} DescendsFromSeed(tasks: Tasks, scopes: map<ScopeId, InputScope>, g: Graph,
                                            i: InstanceId) returns (p: seq<InstanceId>)
    requires Closed(g) && AllPlaced(tasks, scopes, g) && i in g && g[i].scope != BASE
    ensures |p| >= 1 && ScopedPath(g, p, g[i].scope) && p[0] == i && p[|p| - 1] in Upstream(g, i)
    ensures g[i].scope in scopes && g[p[|p| - 1]].task in scopes[g[i].scope].seeds
    decreases i
  {
    var s := g[i].scope;
    assert BindingPlaced(tasks, scopes, g, g[i]);
    if g[i].task in scopes[s].seeds {
      p := [i];
    } else {
      var d :| d in g[i].deps && g[g[i].deps[d]].scope == s;
      var rest := DescendsFromSeed(tasks, scopes, g, g[i].deps[d]);
      ScopedPathPrepend(g, i, rest, s);
      p := [i] + rest;
      assert p[|p| - 1] == rest[|rest| - 1];
    }
  }

  // ---------- at most one instance of a task in a scope ----------

  lemma {:induction false} AtMostOneInBase(tasks: Tasks, scopes: map<ScopeId, InputScope>, g: Graph, i: InstanceId,
                                           j: InstanceId)
    requires Typed(tasks, g) && AllPlaced(tasks, scopes, g) && KeysUnique(g) && i in g && j in g
    requires g[i].task == g[j].task && g[i].scope == BASE && g[j].scope == BASE
    ensures i == j
    decreases i
  {
    forall d | d in g[i].deps
      ensures d in g[j].deps && g[i].deps[d] == g[j].deps[d]
    {
      assert d in g[j].deps;
      assert DepPlaced(tasks, scopes, g, BASE, d, g[i].deps[d]);
      assert DepPlaced(tasks, scopes, g, BASE, d, g[j].deps[d]);
      AtMostOneInBase(tasks, scopes, g, g[i].deps[d], g[j].deps[d]);
    }
    assert g[i].deps == g[j].deps;
    assert SameKey(g[i], g[j]);
  }
}
