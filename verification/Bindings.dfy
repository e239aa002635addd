// Finding the bindings a task may be instantiated with, as the scheduler searches for them.
module Bindings {
  import opened Domain
  import opened Closure
  import opened TaskGraph
  import opened TaskPool
  import opened InstanceGraph
  import opened ControlEnvelope
  import opened RunState

  // ---------- merging ----------

  ghost predicate Compatible<K(!new), V>(a: map<K, V>, b: map<K, V>) {
    forall k :: k in a && k in b ==> a[k] == b[k]
  }

  // Copies source into target, stopping at the first key bound to another value.
  method MergeMapping<K(!new, ==), V(==)>(target: map<K, V>, source: map<K, V>) returns (ok: bool, merged: map<K, V>)
    ensures ok <==> Compatible(target, source)
    ensures ok ==> merged == target + source
  {
    merged := target;
    var todo := source.Keys;
    while todo != {}
      invariant todo <= source.Keys
      invariant merged == target + (source - todo)
      invariant forall k :: k in source && k !in todo && k in target ==> target[k] == source[k]
    {
      var k :| k in todo;
      todo := todo - {k};
      if k in merged && merged[k] != source[k] {
        return false, merged;
      }
      merged := merged[k := source[k]];
    }
    assert source - todo == source;
    ok := true;
  }

  // ---------- lineages ----------

  // m sends each task with an instance in S to that instance.
  ghost predicate IsLineage(g: Graph, S: set<InstanceId>, m: map<TaskId, InstanceId>) {
    m.Keys == TasksOf(g, S) && forall t :: t in m ==> m[t] in S && m[t] in g && g[m[t]].task == t
  }

  // Two lineages merge exactly when together they still have one instance a task.
  lemma MergeLineages(g: Graph, S: set<InstanceId>, m: map<TaskId, InstanceId>, S': set<InstanceId>,
                      m': map<TaskId, InstanceId>)
    requires IsLineage(g, S, m) && IsLineage(g, S', m') && Coherent(g, S) && Coherent(g, S')
    ensures Compatible(m, m') <==> Coherent(g, S + S')
    ensures Compatible(m, m') ==> IsLineage(g, S + S', m + m')
  {
    if Compatible(m, m') {
      MergedLineage(g, S, m, S', m');
    }
    if Coherent(g, S + S') {
      forall t | t in m && t in m'
        ensures m[t] == m'[t]
      {
        assert SameTask(g, m[t], m'[t]);
      }
    }
  }

  lemma LineageAt(g: Graph, S: set<InstanceId>, m: map<TaskId, InstanceId>, x: InstanceId)
    requires IsLineage(g, S, m) && Coherent(g, S) && x in S && x in g
    ensures g[x].task in m && m[g[x].task] == x
  {
    assert SameTask(g, x, m[g[x].task]);
  }

  lemma MergedLineage(g: Graph, S: set<InstanceId>, m: map<TaskId, InstanceId>, S': set<InstanceId>,
                      m': map<TaskId, InstanceId>)
    requires IsLineage(g, S, m) && IsLineage(g, S', m') && Coherent(g, S) && Coherent(g, S') && Compatible(m, m')
    ensures Coherent(g, S + S') && IsLineage(g, S + S', m + m')
  {
    assert Coherent(g, S + S') by {
      forall x, y | x in S + S' && y in S + S' && SameTask(g, x, y)
        ensures x == y
      {
        MergedAt(g, S, m, S', m', x);
        MergedAt(g, S, m, S', m', y);
      }
    }
    assert TasksOf(g, S + S') == TasksOf(g, S) + TasksOf(g, S');
  }

  lemma MergedAt(g: Graph, S: set<InstanceId>, m: map<TaskId, InstanceId>, S': set<InstanceId>,
                 m': map<TaskId, InstanceId>, x: InstanceId)
    requires IsLineage(g, S, m) && IsLineage(g, S', m') && Coherent(g, S) && Coherent(g, S') && Compatible(m, m')
    requires x in S + S' && x in g
    ensures g[x].task in m + m' && (m + m')[g[x].task] == x
  {
    if x in S {
      LineageAt(g, S, m, x);
    } else {
      LineageAt(g, S', m', x);
    }
  }

  lemma CoherentPart(g: Graph, S: set<InstanceId>, T: set<InstanceId>)
    requires Coherent(g, S) && T <= S
    ensures Coherent(g, T)
  {
  }

  ghost predicate AllCoherent(g: Graph) {
    Closed(g) && forall i :: i in g ==> Coherent(g, Upstream(g, i))
  }

  lemma WellFormedCoherent(tasks: Tasks, scopes: map<ScopeId, InputScope>, g: Graph)
    requires ValidTasks(tasks) && WellFormed(tasks, scopes, g)
    ensures AllCoherent(g)
  {
    hide ValidTasks, BindingOk, KeysUnique, Coherent;
    forall i | i in g
      ensures Coherent(g, Upstream(g, i))
    {
      LineageIsCut(tasks, scopes, g, i);
    }
  }

  type Cache = map<InstanceId, map<TaskId, InstanceId>>

  // What is cached is what recomputation would give.
  ghost predicate CacheOk(g: Graph, cache: Cache)
    requires Closed(g)
  {
    forall i :: i in cache ==> i in g && IsLineage(g, Upstream(g, i), cache[i])
  }

  lemma CacheExtends(g: Graph, g': Graph, cache: Cache)
    requires Closed(g) && Closed(g') && Extends(g, g') && CacheOk(g, cache)
    ensures CacheOk(g', cache)
  {
    forall i | i in cache
      ensures i in g' && IsLineage(g', Upstream(g', i), cache[i])
    {
      UpstreamExtends(g, g', i);
      forall x | x in Upstream(g, i)
        ensures x in g
      {
        UpstreamPresent(g, i, x);
      }
    }
  }

  function Part(deps: map<TaskId, InstanceId>, ds: set<TaskId>): map<TaskId, InstanceId> {
    map d | d in deps && d in ds :: deps[d]
  }

  lemma PartGrows(g: Graph, deps: map<TaskId, InstanceId>, ds: set<TaskId>, d: TaskId)
    requires Closed(g) && DepsIn(g, deps) && d in deps
    ensures UpstreamOf(g, Part(deps, ds + {d})) == UpstreamOf(g, Part(deps, ds)) + Upstream(g, deps[d])
  {
    forall x
      ensures x in UpstreamOf(g, Part(deps, ds + {d})) <==>
        x in UpstreamOf(g, Part(deps, ds)) || x in Upstream(g, deps[d])
    {
      if x in Upstream(g, deps[d]) {
        assert d in Part(deps, ds + {d});
      }
      if x in UpstreamOf(g, Part(deps, ds)) {
        var e :| e in Part(deps, ds) && x in Upstream(g, Part(deps, ds)[e]);
        assert e in Part(deps, ds + {d});
      }
    }
  }

  // The instance and what lies upstream through some of its dependencies.
  ghost function Above(g: Graph, id: InstanceId, ds: set<TaskId>): set<InstanceId>
    requires Closed(g) && id in g
  {
    {id} + UpstreamOf(g, Part(g[id].deps, ds))
  }

  lemma AboveBounds(g: Graph, id: InstanceId, ds: set<TaskId>)
    requires Closed(g) && id in g
    ensures Above(g, id, {}) == {id} && Above(g, id, ds) <= Upstream(g, id)
    ensures Above(g, id, g[id].deps.Keys) == Upstream(g, id)
  {
    assert Part(g[id].deps, g[id].deps.Keys) == g[id].deps;
    assert Upstream(g, id) == {id} + UpstreamOf(g, g[id].deps);
    assert forall e :: e in Part(g[id].deps, ds) ==> e in g[id].deps && Part(g[id].deps, ds)[e] == g[id].deps[e];
  }

  lemma AboveGrows(g: Graph, id: InstanceId, ds: set<TaskId>, d: TaskId)
    requires Closed(g) && id in g && d in g[id].deps
    ensures Above(g, id, ds + {d}) == Above(g, id, ds) + Upstream(g, g[id].deps[d])
  {
    PartGrows(g, g[id].deps, ds, d);
  }

  // The lineage over some dependencies, and then over one more.
  lemma LineageStep(g: Graph, id: InstanceId, ds: set<TaskId>, d: TaskId, m: map<TaskId, InstanceId>,
                    m': map<TaskId, InstanceId>)
    requires AllCoherent(g) && id in g && d in g[id].deps
    requires IsLineage(g, Above(g, id, ds), m) && IsLineage(g, Upstream(g, g[id].deps[d]), m')
    ensures Compatible(m, m') && IsLineage(g, Above(g, id, ds + {d}), m + m')
  {
    hide Coherent, IsLineage, Above, Upstream;
    var whole, before, more := Upstream(g, id), Above(g, id, ds), Upstream(g, g[id].deps[d]);
    AboveGrows(g, id, ds, d);
    AboveBounds(g, id, ds + {d});
    assert before + more <= whole;
    assert before <= whole && more <= whole;
    CoherentPart(g, whole, before);
    CoherentPart(g, whole, more);
    CoherentPart(g, whole, before + more);
    MergeLineages(g, before, m, more, m');
  }

  // Neither a missing dependency nor an ambiguous lineage is ever met.
  method InstanceLineage(instances: map<InstanceId, Instance>, id: InstanceId, cache: Cache)
    returns (lineage: map<TaskId, InstanceId>, cache': Cache)
    requires AllCoherent(GraphOf(instances)) && CacheOk(GraphOf(instances), cache) && id in instances
    ensures CacheOk(GraphOf(instances), cache')
    ensures IsLineage(GraphOf(instances), Upstream(GraphOf(instances), id), lineage)
    decreases id
  {
    hide Coherent, Above, Upstream, AllCoherent;
    ghost var g := GraphOf(instances);
    assert Closed(g) by {
      CoherentClosed(g);
    }
    cache' := cache;
    if id in cache {
      return cache[id], cache;
    }
    var b := instances[id].binding;
    assert g[id] == b;
    lineage := map[b.task := id];
    var todo := b.deps.Keys;
    AboveBounds(g, id, {});
    assert b.deps.Keys - todo == {};
    assert IsLineage(g, {id}, lineage);
    while todo != {}
      invariant todo <= b.deps.Keys && CacheOk(g, cache')
      invariant IsLineage(g, Above(g, id, b.deps.Keys - todo), lineage)
    {
      var d :| d in todo;
      ghost var done := b.deps.Keys - todo;
      todo := todo - {d};
      assert b.deps[d] in instances && b.deps[d] < id;
      var dependencyLineage;
      dependencyLineage, cache' := InstanceLineage(instances, b.deps[d], cache');
      LineageStep(g, id, done, d, lineage, dependencyLineage);
      var merged;
      merged, lineage := MergeMapping(lineage, dependencyLineage);
      assert merged;
      assert b.deps.Keys - todo == done + {d};
    }
    assert b.deps.Keys - todo == b.deps.Keys;
    cache' := cache'[id := lineage];
  }

  lemma CoherentClosed(g: Graph)
    requires AllCoherent(g)
    ensures Closed(g)
  {
  }

  // ---------- controllers ----------

  // The first controller found that owns the task; on valid control edges there is no other.
  method TaskControlOwner(tasks: Tasks, t: TaskId) returns (owner: Option<TaskId>)
    requires RoutesOk(tasks)
    ensures owner == ControlOwner(tasks, t)
  {
    var todo := tasks.Keys;
    while todo != {}
      invariant todo <= tasks.Keys
      invariant forall c :: c in tasks && c !in todo ==> !Owns(tasks[c], t)
    {
      var c :| c in todo;
      todo := todo - {c};
      if Owns(tasks[c], t) {
        OwnerUnique(tasks, c, t);
        return Some(c);
      }
    }
    return None;
  }

  // The scope with neither parent nor creator.
  method BaseInputScopeId(tasks: Tasks, scopes: map<ScopeId, InputScope>, ghost g: Graph) returns (base: ScopeId)
    requires ScopesOk(tasks, scopes, g)
    ensures base == BASE
  {
    assert forall s :: s in scopes && s != BASE ==> ScopeOk(tasks, scopes, g, s);
    var todo := scopes.Keys;
    while todo != {}
      invariant BASE in todo && todo <= scopes.Keys
    {
      var s :| s in todo;
      todo := todo - {s};
      if scopes[s].parent == None && scopes[s].creator == None {
        return s;
      }
    }
    assert false;
    base := BASE;
  }

  // A base instance may stand in for a task that is an ancestor of some seed of the scope.
  method InputScopeCanReuseBase(tasks: Tasks, scopes: map<ScopeId, InputScope>, s: ScopeId,
                                d: TaskId) returns (ok: bool)
    requires s in scopes && forall seed :: seed in scopes[s].seeds ==> seed in tasks
    ensures ok <==> CanReuseBase(tasks, scopes, s, d)
  {
    var seeds := scopes[s].seeds;
    for k := 0 to |seeds|
      invariant forall j :: 0 <= j < k ==> !IsAncestor(tasks, d, seeds[j])
    {
      var ancestors := CollectAncestors(tasks, seeds[k]);
      AncestorPresent(tasks, d, seeds[k]);
      if d in ancestors {
        return true;
      }
    }
    return false;
  }

  lemma AncestorPresent(tasks: Tasks, a: TaskId, t: TaskId)
    ensures IsAncestor(tasks, a, t) ==> a in Ancestors(tasks, t)
  {
    if IsAncestor(tasks, a, t) {
      var edges := DependsMap(tasks);
      var m := ReachesUnfold(edges, t, a);
      ReachesStaysIn(edges, tasks.Keys, t, a);
    }
  }

  // ---------- candidates for one dependency ----------

  // The instances of a task in a scope, in some order.
  method InstancesIn(instances: map<InstanceId, Instance>, t: TaskId, s: ScopeId) returns (found: seq<InstanceId>)
    ensures forall x :: x in found <==>
      x in instances && instances[x].binding.task == t && instances[x].binding.scope == s
  {
    found := [];
    var todo := instances.Keys;
    while todo != {}
      invariant todo <= instances.Keys
      invariant forall x :: x in found <==>
        x in instances && x !in todo && instances[x].binding.task == t && instances[x].binding.scope == s
    {
      var x :| x in todo;
      todo := todo - {x};
      if instances[x].binding.task == t && instances[x].binding.scope == s {
        found := found + [x];
      }
    }
  }

  // The preconditions shared by the search: a consistent run.
  ghost predicate Searchable(tasks: Tasks, scopes: map<ScopeId, InputScope>, g: Graph) {
    ValidTasks(tasks) && WellFormed(tasks, scopes, g) && ScopesOk(tasks, scopes, g)
  }

  lemma SeedsAreTasks(tasks: Tasks, scopes: map<ScopeId, InputScope>, g: Graph, s: ScopeId)
    requires RoutesOk(tasks) && ScopesOk(tasks, scopes, g) && s in scopes
    ensures forall seed :: seed in scopes[s].seeds ==> seed in tasks
  {
    if s != BASE {
      assert ScopeOk(tasks, scopes, g, s);
      var c := g[scopes[s].creator.value].task;
      forall seed | seed in scopes[s].seeds
        ensures seed in tasks
      {
        OwnedAreTargets(tasks[c], seed);
        assert TargetOk(tasks, c, seed);
      }
    }
  }

  // The controller instances whose stored control activates t.
  method SelectingOnly(tasks: Tasks, instances: map<InstanceId, Instance>, results: map<InstanceId, Payload>,
                       scoped: seq<InstanceId>, t: TaskId)
    returns (found: seq<InstanceId>)
    requires forall x :: x in scoped ==> x in instances
    ensures forall x :: x in found <==> x in scoped && Selects(tasks, GraphOf(instances), results, x, t)
  {
    hide Activates, ControlOf;
    ghost var g := GraphOf(instances);
    found := [];
    for k := 0 to |scoped|
      invariant forall x :: x in found <==> x in scoped[..k] && Selects(tasks, g, results, x, t)
    {
      var x := scoped[k];
      var d := instances[x].binding.task;
      assert g[x].task == d;
      if d in tasks && Activates(tasks[d], ControlOf(tasks, d, results, x), t) {
        found := found + [x];
      }
    }
    assert scoped[..|scoped|] == scoped;
  }

  method DependencyCandidateInstances(tasks: Tasks, scopes: map<ScopeId, InputScope>,
                                      instances: map<InstanceId, Instance>, results: map<InstanceId, Payload>,
                                      t: TaskId, s: ScopeId, d: TaskId, owner: Option<TaskId>)
    returns (found: seq<InstanceId>)
    requires RoutesOk(tasks) && ScopesOk(tasks, scopes, GraphOf(instances)) && s in scopes
    requires owner == ControlOwner(tasks, t)
    ensures forall x :: x in found <==> MayFill(tasks, scopes, GraphOf(instances), results, t, s, d, x)
  {
    hide IsAncestor, CanReuseBase, ControlOwner, Selects, HasInScope;
    ghost var g := GraphOf(instances);
    var scoped := InstancesIn(instances, d, s);
    ScopedDecides(g, scoped, d, s);
    if owner == Some(d) {
      found := SelectingOnly(tasks, instances, results, scoped, t);
      return;
    }
    if scoped != [] {
      return scoped;
    }
    var base := BaseInputScopeId(tasks, scopes, g);
    if s == base {
      return [];
    }
    SeedsAreTasks(tasks, scopes, g, s);
    hide ScopesOk, RoutesOk;
    var reusable := InputScopeCanReuseBase(tasks, scopes, s, d);
    if !reusable {
      return [];
    }
    found := InstancesIn(instances, d, base);
  }

  lemma ScopedDecides(g: Graph, scoped: seq<InstanceId>, d: TaskId, s: ScopeId)
    requires forall x :: x in scoped <==> x in g && g[x].task == d && g[x].scope == s
    ensures scoped == [] <==> !HasInScope(g, d, s)
  {
    if scoped != [] {
      assert scoped[0] in scoped;
    }
  }

  // ---------- products ----------

  // All ways to take one element of each list, in order.
  function Product(lists: seq<seq<InstanceId>>): seq<seq<InstanceId>> {
    if lists == [] then [[]] else Prefixed(lists[0], Product(lists[1..]))
  }

  function Prefixed(heads: seq<InstanceId>, tails: seq<seq<InstanceId>>): seq<seq<InstanceId>> {
    if heads == [] then [] else Prepend(heads[0], tails) + Prefixed(heads[1..], tails)
  }

  function Prepend(head: InstanceId, tails: seq<seq<InstanceId>>): seq<seq<InstanceId>> {
    if tails == [] then [] else [[head] + tails[0]] + Prepend(head, tails[1..])
  }

  ghost predicate IsChoice(lists: seq<seq<InstanceId>>, c: seq<InstanceId>) {
    |c| == |lists| && forall k :: 0 <= k < |c| ==> c[k] in lists[k]
  }

  lemma {:induction false} PrependMember(head: InstanceId, tails: seq<seq<InstanceId>>, c: seq<InstanceId>)
    ensures c in Prepend(head, tails) <==> |c| > 0 && c[0] == head && c[1..] in tails
  {
    if tails != [] {
      PrependMember(head, tails[1..], c);
      assert |c| > 0 && c[0] == head && c[1..] == tails[0] ==> c == [head] + tails[0];
      assert forall x :: x in tails <==> x == tails[0] || x in tails[1..];
    }
  }

  lemma {:induction false} PrefixedMember(heads: seq<InstanceId>, tails: seq<seq<InstanceId>>, c: seq<InstanceId>)
    ensures c in Prefixed(heads, tails) <==> |c| > 0 && c[0] in heads && c[1..] in tails
  {
    if heads != [] {
      PrefixedMember(heads[1..], tails, c);
      PrependMember(heads[0], tails, c);
      assert forall x :: x in heads <==> x == heads[0] || x in heads[1..];
    }
  }

  // The product holds exactly the choices.
  lemma {:induction false} ProductMember(lists: seq<seq<InstanceId>>, c: seq<InstanceId>)
    ensures c in Product(lists) <==> IsChoice(lists, c)
  {
    if lists != [] {
      PrefixedMember(lists[0], Product(lists[1..]), c);
      if |c| > 0 {
        ProductMember(lists[1..], c[1..]);
        if IsChoice(lists, c) {
          assert IsChoice(lists[1..], c[1..]);
        }
        if c[0] in lists[0] && IsChoice(lists[1..], c[1..]) {
          assert forall k :: 0 < k < |c| ==> c[k] == c[1..][k - 1] && lists[k] == lists[1..][k - 1];
        }
      }
    }
  }
}
