// All valid bindings of one task in one scope.
module CandidateSearch {
  import opened Domain
  import opened TaskGraph
  import opened InstanceGraph
  import opened ControlEnvelope
  import opened RunState
  import opened Preservation
  import opened Bindings

  // deps binds the k-th dependency of the task to the k-th element of c.
  ghost predicate ChoiceOf(task: Task, deps: map<TaskId, InstanceId>, c: seq<InstanceId>) {
    |c| == |task.dependsOn| && deps.Keys == DepTasks(task) &&
    forall k :: 0 <= k < |c| ==> deps[task.dependsOn[k].task] == c[k]
  }

  ghost predicate AllIn(g: Graph, c: seq<InstanceId>) {
    forall k :: 0 <= k < |c| ==> c[k] in g
  }

  ghost function UpstreamOfAll(g: Graph, c: seq<InstanceId>): set<InstanceId>
    requires Closed(g) && AllIn(g, c)
  {
    set k, x | 0 <= k < |c| && x in Upstream(g, c[k]) :: x
  }

  lemma UpstreamOfAllGrows(g: Graph, c: seq<InstanceId>, y: InstanceId)
    requires Closed(g) && AllIn(g, c) && y in g
    ensures UpstreamOfAll(g, c + [y]) == UpstreamOfAll(g, c) + Upstream(g, y)
  {
    hide Upstream;
    var all := c + [y];
    forall x
      ensures x in UpstreamOfAll(g, all) <==> x in UpstreamOfAll(g, c) || x in Upstream(g, y)
    {
      if x in UpstreamOfAll(g, c) {
        var k :| 0 <= k < |c| && x in Upstream(g, c[k]);
        assert all[k] == c[k];
      }
      if x in Upstream(g, y) {
        assert all[|c|] == y;
      }
    }
  }

  lemma ChoiceUpstream(g: Graph, task: Task, deps: map<TaskId, InstanceId>, c: seq<InstanceId>)
    requires Closed(g) && AllIn(g, c) && DepsIn(g, deps) && ChoiceOf(task, deps, c)
    ensures UpstreamOf(g, deps) == UpstreamOfAll(g, c)
  {
    forall x
      ensures x in UpstreamOf(g, deps) <==> x in UpstreamOfAll(g, c)
    {
      if x in UpstreamOf(g, deps) {
        var d :| d in deps && x in Upstream(g, deps[d]);
        var k :| 0 <= k < |task.dependsOn| && task.dependsOn[k].task == d;
        assert x in Upstream(g, c[k]);
      }
      if x in UpstreamOfAll(g, c) {
        var k :| 0 <= k < |c| && x in Upstream(g, c[k]);
        assert task.dependsOn[k].task in deps;
      }
    }
  }

  // ---------- merging the activation bindings ----------

  // activation holds exactly the activation bindings of the instances of c.
  ghost predicate ActivationOfAll(g: Graph, c: seq<InstanceId>, activation: map<TaskId, InstanceId>)
    requires AllIn(g, c)
  {
    (forall t :: t in activation ==> exists k :: 0 <= k < |c| && t in g[c[k]].activation) &&
    forall k, t :: 0 <= k < |c| && t in g[c[k]].activation ==> t in activation && activation[t] == g[c[k]].activation[t]
  }

  lemma ActivationInUpstream(tasks: Tasks, g: Graph, y: InstanceId, t: TaskId)
    requires AllActivationsOk(tasks, g) && y in g && t in g[y].activation
    ensures g[y].activation[t] in Upstream(g, y) && g[y].activation[t] in g && g[g[y].activation[t]].task == t
  {
    assert ActivationOk(tasks, g, g[y]);
    assert Upstream(g, y) == {y} + UpstreamOf(g, g[y].deps);
  }

  // Once the lineages agree, the activation bindings agree.
  lemma ActivationsAgree(tasks: Tasks, g: Graph, c: seq<InstanceId>, y: InstanceId, activation: map<TaskId, InstanceId>)
    requires AllActivationsOk(tasks, g) && AllIn(g, c) && y in g && ActivationOfAll(g, c, activation)
    requires Coherent(g, UpstreamOfAll(g, c + [y]))
    ensures Compatible(activation, g[y].activation)
    ensures ActivationOfAll(g, c + [y], activation + g[y].activation)
  {
    hide ActivationOk, Upstream;
    var all := c + [y];
    UpstreamOfAllGrows(g, c, y);
    forall t | t in activation && t in g[y].activation
      ensures activation[t] == g[y].activation[t]
    {
      var k :| 0 <= k < |c| && t in g[c[k]].activation;
      ActivationInUpstream(tasks, g, c[k], t);
      ActivationInUpstream(tasks, g, y, t);
      assert activation[t] in UpstreamOfAll(g, c);
      assert SameTask(g, activation[t], g[y].activation[t]);
    }
    forall t | t in activation + g[y].activation
      ensures exists k :: 0 <= k < |all| && t in g[all[k]].activation
    {
      if t in g[y].activation {
        assert all[|c|] == y;
      } else {
        var k :| 0 <= k < |c| && t in g[c[k]].activation;
        assert all[k] == c[k];
      }
    }
  }

  // The owner's own binding agrees with what the dependencies already say about it.
  lemma OwnerAgrees(tasks: Tasks, g: Graph, task: Task, deps: map<TaskId, InstanceId>, c: seq<InstanceId>,
                    activation: map<TaskId, InstanceId>, owner: TaskId)
    requires AllActivationsOk(tasks, g) && AllIn(g, c) && DepsIn(g, deps) && ChoiceOf(task, deps, c)
    requires ActivationOfAll(g, c, activation)
    requires Coherent(g, UpstreamOf(g, deps)) && owner in deps && g[deps[owner]].task == owner
    ensures owner in activation ==> activation[owner] == deps[owner]
  {
    hide ActivationOk;
    if owner in activation {
      var k :| 0 <= k < |c| && owner in g[c[k]].activation;
      ActivationInUpstream(tasks, g, c[k], owner);
      ChoiceUpstream(g, task, deps, c);
      assert deps[owner] in Upstream(g, deps[owner]);
      assert SameTask(g, activation[owner], deps[owner]);
    }
  }

  lemma MergedFromAll(tasks: Tasks, g: Graph, t: TaskId, deps: map<TaskId, InstanceId>, c: seq<InstanceId>,
                      all: map<TaskId, InstanceId>, activation: map<TaskId, InstanceId>)
    requires t in tasks && AllIn(g, c) && DepsIn(g, deps) && ChoiceOf(tasks[t], deps, c) && ActivationOfAll(g, c, all)
    requires
      match ControlOwner(tasks, t)
      case None => activation == all
      case Some(o) => o in deps && (o in all ==> all[o] == deps[o]) && activation == all[o := deps[o]]
    ensures MergedActivation(tasks, g, t, deps, activation)
  {
    hide ControlOwner, ChoiceOf, ActivationOfAll;
    AllByDependency(g, tasks[t], deps, c, all);
  }

  // The same union, read by dependency instead of by position.
  lemma AllByDependency(g: Graph, task: Task, deps: map<TaskId, InstanceId>, c: seq<InstanceId>,
                        all: map<TaskId, InstanceId>)
    requires AllIn(g, c) && DepsIn(g, deps) && ChoiceOf(task, deps, c) && ActivationOfAll(g, c, all)
    ensures forall a :: a in all <==> exists d :: d in deps && a in g[deps[d]].activation
    ensures forall d, a :: d in deps && a in g[deps[d]].activation ==> a in all && all[a] == g[deps[d]].activation[a]
  {
    forall d, a | d in deps && a in g[deps[d]].activation
      ensures a in all && all[a] == g[deps[d]].activation[a]
    {
      var k :| 0 <= k < |task.dependsOn| && task.dependsOn[k].task == d;
      assert c[k] == deps[d];
    }
    forall a | a in all
      ensures exists d :: d in deps && a in g[deps[d]].activation
    {
      var k :| 0 <= k < |c| && a in g[c[k]].activation;
      assert task.dependsOn[k].task in deps;
    }
  }

  // ---------- one combination ----------

  // A combination is kept exactly when it stands for one instance a task and hangs on the scope.
  ghost predicate Keeps(tasks: Tasks, scopes: map<ScopeId, InputScope>, g: Graph, t: TaskId, s: ScopeId,
                        c: seq<InstanceId>, deps: map<TaskId, InstanceId>)
    requires Closed(g) && s in scopes
  {
    t in tasks && ChoiceOf(tasks[t], deps, c) && DepsIn(g, deps) && Coherent(g, UpstreamOf(g, deps)) &&
    Anchored(scopes, g, t, s, deps)
  }

  // What the search relies on.
  ghost predicate Consistent(tasks: Tasks, g: Graph) {
    RoutesOk(tasks) && AllCoherent(g) && AllActivationsOk(tasks, g)
  }

  lemma ConsistentFrom(tasks: Tasks, scopes: map<ScopeId, InputScope>, g: Graph)
    requires ValidTasks(tasks) && WellFormed(tasks, scopes, g)
    ensures Consistent(tasks, g)
  {
    WellFormedCoherent(tasks, scopes, g);
    assert AllActivationsOk(tasks, g) by {
      assert forall i :: i in g ==> BindingOk(tasks, scopes, g, g[i]);
    }
  }

  // The merge of the lineages of c; None when two of them differ on a task. The merge of the
  // activation bindings that goes along with it never refuses.
  method MergeCombination(tasks: Tasks, instances: map<InstanceId, Instance>, c: seq<InstanceId>, cache: Cache)
    returns (activation: Option<map<TaskId, InstanceId>>, cache': Cache)
    requires Consistent(tasks, GraphOf(instances)) && CacheOk(GraphOf(instances), cache) && AllIn(GraphOf(instances), c)
    ensures CacheOk(GraphOf(instances), cache')
    ensures activation.Some? <==> Coherent(GraphOf(instances), UpstreamOfAll(GraphOf(instances), c))
    ensures activation.Some? ==> ActivationOfAll(GraphOf(instances), c, activation.value)
  {
    hide Coherent, Upstream, IsLineage, ActivationOk, RoutesOk, UpstreamOfAll;
    ghost var g := GraphOf(instances);
    cache' := cache;
    var lineage: map<TaskId, InstanceId> := map[];
    var merged: map<TaskId, InstanceId> := map[];
    NothingMerged(g);
    for k := 0 to |c|
      invariant CacheOk(g, cache') && AllIn(g, c[..k])
      invariant Coherent(g, UpstreamOfAll(g, c[..k])) && IsLineage(g, UpstreamOfAll(g, c[..k]), lineage)
      invariant ActivationOfAll(g, c[..k], merged)
    {
      var more;
      more, cache' := InstanceLineage(instances, c[k], cache');
      assert c[..k + 1] == c[..k] + [c[k]];
      UpstreamOfAllGrows(g, c[..k], c[k]);
      assert Coherent(g, Upstream(g, c[k]));
      MergeLineages(g, UpstreamOfAll(g, c[..k]), lineage, Upstream(g, c[k]), more);
      var ok;
      ok, lineage := MergeMapping(lineage, more);
      if !ok {
        WholeIncoherent(g, c, k + 1);
        return None, cache';
      }
      ActivationsAgree(tasks, g, c[..k], c[k], merged);
      assert instances[c[k]].binding == g[c[k]];
      ok, merged := MergeMapping(merged, instances[c[k]].binding.activation);
      assert ok;
    }
    assert c[..|c|] == c;
    activation := Some(merged);
  }

  lemma NothingMerged(g: Graph)
    requires Closed(g)
    ensures AllIn(g, []) && UpstreamOfAll(g, []) == {} && Coherent(g, {}) && IsLineage(g, {}, map[])
    ensures ActivationOfAll(g, [], map[])
  {
  }

  lemma WholeIncoherent(g: Graph, c: seq<InstanceId>, k: nat)
    requires Closed(g) && AllIn(g, c) && k <= |c|
    ensures Coherent(g, UpstreamOfAll(g, c)) ==> Coherent(g, UpstreamOfAll(g, c[..k]))
  {
    assert UpstreamOfAll(g, c[..k]) <= UpstreamOfAll(g, c);
    if Coherent(g, UpstreamOfAll(g, c)) {
      CoherentPart(g, UpstreamOfAll(g, c), UpstreamOfAll(g, c[..k]));
    }
  }

  // With one instance a task, positions with the same task hold the same instance.
  lemma CoherentIsChoice(g: Graph, task: Task, deps: map<TaskId, InstanceId>, c: seq<InstanceId>)
    requires Closed(g) && AllIn(g, c) && |c| == |task.dependsOn| && Coherent(g, UpstreamOfAll(g, c))
    requires forall k :: 0 <= k < |c| ==> g[c[k]].task == task.dependsOn[k].task
    requires deps.Keys == DepTasks(task) && forall d :: d in deps ==>
      exists k :: 0 <= k < |c| && task.dependsOn[k].task == d && deps[d] == c[k]
    ensures ChoiceOf(task, deps, c)
  {
    forall k | 0 <= k < |c|
      ensures deps[task.dependsOn[k].task] == c[k]
    {
      var j :| 0 <= j < |c| && task.dependsOn[j].task == task.dependsOn[k].task && deps[task.dependsOn[k].task] == c[j];
      assert c[j] in Upstream(g, c[j]) && c[k] in Upstream(g, c[k]);
      assert SameTask(g, c[j], c[k]);
    }
  }

  // The dictionary from the dependencies' tasks to the chosen instances; a repeated task keeps the last.
  method DependencyMap(task: Task, c: seq<InstanceId>) returns (deps: map<TaskId, InstanceId>)
    requires |c| == |task.dependsOn|
    ensures deps.Keys == DepTasks(task)
    ensures forall d :: d in deps ==> exists k :: 0 <= k < |c| && task.dependsOn[k].task == d && deps[d] == c[k]
  {
    deps := map[];
    for k := 0 to |c|
      invariant deps.Keys == set j | 0 <= j < k :: task.dependsOn[j].task
      invariant forall d :: d in deps ==> exists j :: 0 <= j < k && task.dependsOn[j].task == d && deps[d] == c[j]
    {
      deps := deps[task.dependsOn[k].task := c[k]];
    }
  }

  method AnyInScope(instances: map<InstanceId, Instance>, c: seq<InstanceId>, s: ScopeId) returns (found: bool)
    requires AllIn(GraphOf(instances), c)
    ensures found <==> exists k :: 0 <= k < |c| && instances[c[k]].binding.scope == s
  {
    found := false;
    for k := 0 to |c|
      invariant found <==> exists j :: 0 <= j < k && instances[c[j]].binding.scope == s
    {
      found := found || instances[c[k]].binding.scope == s;
    }
  }

  method TryCombination(tasks: Tasks, scopes: map<ScopeId, InputScope>, instances: map<InstanceId, Instance>, t: TaskId,
                        s: ScopeId, owner: Option<TaskId>, c: seq<InstanceId>, cache: Cache)
    returns (r: Option<(map<TaskId, InstanceId>, map<TaskId, InstanceId>)>, cache': Cache)
    requires Consistent(tasks, GraphOf(instances)) && CacheOk(GraphOf(instances), cache)
    requires t in tasks && s in scopes && owner == ControlOwner(tasks, t)
    requires AllIn(GraphOf(instances), c) && |c| == |tasks[t].dependsOn|
    requires forall k :: 0 <= k < |c| ==> instances[c[k]].binding.task == tasks[t].dependsOn[k].task
    ensures CacheOk(GraphOf(instances), cache')
    ensures r.Some? ==>
      Keeps(tasks, scopes, GraphOf(instances), t, s, c, r.value.0) &&
      MergedActivation(tasks, GraphOf(instances), t, r.value.0, r.value.1)
    ensures forall deps :: Keeps(tasks, scopes, GraphOf(instances), t, s, c, deps) ==> r.Some? && r.value.0 == deps
  {
    hide Coherent, Upstream, UpstreamOf, UpstreamOfAll, ActivationOk, ActivationOfAll, RoutesOk, AllCoherent, CacheOk,
      MergedActivation;
    ghost var g := GraphOf(instances);
    var deps := DependencyMap(tasks[t], c);
    var merged;
    merged, cache' := MergeCombination(tasks, instances, c, cache);
    forall other | ChoiceOf(tasks[t], other, c) && DepsIn(g, other)
      ensures UpstreamOf(g, other) == UpstreamOfAll(g, c) && other == deps
    {
      ChoiceUpstream(g, tasks[t], other, c);
    }
    if merged.None? {
      return None, cache';
    }
    CoherentIsChoice(g, tasks[t], deps, c);
    assert DepsIn(g, deps);
    var anchored := AnyInScope(instances, c, s);
    AnchoredByChoice(scopes, g, tasks[t], t, s, deps, c);
    if s != BASE && t !in scopes[s].seeds && !anchored {
      return None, cache';
    }
    var activation := merged.value;
    if owner.Some? {
      OwnerBound(tasks, t);
      OwnerAgrees(tasks, g, tasks[t], deps, c, activation, owner.value);
      activation := activation[owner.value := deps[owner.value]];
    }
    MergedFromAll(tasks, g, t, deps, c, merged.value, activation);
    r := Some((deps, activation));
  }

  lemma OwnerBound(tasks: Tasks, t: TaskId)
    requires RoutesOk(tasks) && t in tasks && ControlOwner(tasks, t).Some?
    ensures ControlOwner(tasks, t).value in DepTasks(tasks[t])
  {
    OwnerIsDependency(tasks, t);
  }

  lemma AnchoredByChoice(scopes: map<ScopeId, InputScope>, g: Graph, task: Task, t: TaskId, s: ScopeId,
                         deps: map<TaskId, InstanceId>, c: seq<InstanceId>)
    requires s in scopes && DepsIn(g, deps) && AllIn(g, c) && ChoiceOf(task, deps, c)
    ensures Anchored(scopes, g, t, s, deps) <==>
      s == BASE || t in scopes[s].seeds || exists k :: 0 <= k < |c| && g[c[k]].scope == s
  {
    if d :| d in deps && g[deps[d]].scope == s {
      var k :| 0 <= k < |task.dependsOn| && task.dependsOn[k].task == d;
      assert g[c[k]].scope == s;
    }
    if k :| 0 <= k < |c| && g[c[k]].scope == s {
      assert task.dependsOn[k].task in deps;
    }
  }

  // ---------- all combinations ----------

  // The lists hold, for each dependency of t, the instances that may fill it.
  ghost predicate ListsCandidates(tasks: Tasks, scopes: map<ScopeId, InputScope>, g: Graph,
                                  results: map<InstanceId, Payload>, t: TaskId, s: ScopeId, lists: seq<seq<InstanceId>>)
    requires t in tasks && s in scopes
  {
    |lists| <= |tasks[t].dependsOn| &&
    forall k, x :: 0 <= k < |lists| ==>
      (x in lists[k] <==> MayFill(tasks, scopes, g, results, t, s, tasks[t].dependsOn[k].task, x))
  }

  lemma KeptIsCandidate(tasks: Tasks, scopes: map<ScopeId, InputScope>, g: Graph, results: map<InstanceId, Payload>,
                        t: TaskId, s: ScopeId, lists: seq<seq<InstanceId>>, c: seq<InstanceId>,
                        deps: map<TaskId, InstanceId>)
    requires Closed(g) && t in tasks && s in scopes && ListsCandidates(tasks, scopes, g, results, t, s, lists)
    requires IsChoice(lists, c) && Keeps(tasks, scopes, g, t, s, c, deps)
    ensures IsCandidate(tasks, scopes, g, results, t, s, deps)
  {
    hide MayFill, Anchored, Coherent;
    forall d | d in deps
      ensures MayFill(tasks, scopes, g, results, t, s, d, deps[d])
    {
      var k :| 0 <= k < |tasks[t].dependsOn| && tasks[t].dependsOn[k].task == d;
      assert c[k] in lists[k];
    }
  }

  lemma KeptIsBinding(tasks: Tasks, scopes: map<ScopeId, InputScope>, g: Graph, results: map<InstanceId, Payload>,
                      t: TaskId, s: ScopeId, lists: seq<seq<InstanceId>>, c: seq<InstanceId>,
                      b: (map<TaskId, InstanceId>, map<TaskId, InstanceId>))
    requires Closed(g) && t in tasks && s in scopes && ListsCandidates(tasks, scopes, g, results, t, s, lists)
    requires IsChoice(lists, c) && Keeps(tasks, scopes, g, t, s, c, b.0) && MergedActivation(tasks, g, t, b.0, b.1)
    ensures IsBinding(tasks, scopes, g, results, t, s, b.0, b.1)
  {
    KeptIsCandidate(tasks, scopes, g, results, t, s, lists, c, b.0);
  }

  lemma CandidateIsKept(tasks: Tasks, scopes: map<ScopeId, InputScope>, g: Graph, results: map<InstanceId, Payload>,
                        t: TaskId, s: ScopeId, lists: seq<seq<InstanceId>>,
                        deps: map<TaskId, InstanceId>) returns (c: seq<InstanceId>)
    requires Closed(g) && t in tasks && s in scopes && ListsCandidates(tasks, scopes, g, results, t, s, lists)
    requires |lists| == |tasks[t].dependsOn| && IsCandidate(tasks, scopes, g, results, t, s, deps)
    ensures IsChoice(lists, c) && Keeps(tasks, scopes, g, t, s, c, deps)
  {
    hide MayFill, Anchored, Coherent;
    var task := tasks[t];
    assert forall k :: 0 <= k < |task.dependsOn| ==> task.dependsOn[k].task in deps;
    c := seq(|task.dependsOn|, k requires 0 <= k < |task.dependsOn| => deps[task.dependsOn[k].task]);
    forall k | 0 <= k < |c|
      ensures c[k] in lists[k]
    {
      assert MayFill(tasks, scopes, g, results, t, s, task.dependsOn[k].task, deps[task.dependsOn[k].task]);
    }
  }

  // A valid binding with its activation bindings.
  ghost predicate IsBinding(tasks: Tasks, scopes: map<ScopeId, InputScope>, g: Graph, results: map<InstanceId, Payload>,
                            t: TaskId, s: ScopeId, deps: map<TaskId, InstanceId>, activation: map<TaskId, InstanceId>)
    requires Closed(g)
  {
    IsCandidate(tasks, scopes, g, results, t, s, deps) && MergedActivation(tasks, g, t, deps, activation)
  }

  // Every binding found is valid, and every valid binding is found.
  ghost predicate FindsCandidates(tasks: Tasks, scopes: map<ScopeId, InputScope>, g: Graph,
                                  results: map<InstanceId, Payload>, t: TaskId, s: ScopeId,
                                  bindings: seq<(map<TaskId, InstanceId>, map<TaskId, InstanceId>)>)
    requires Closed(g)
  {
    (forall b :: b in bindings ==> IsBinding(tasks, scopes, g, results, t, s, b.0, b.1)) &&
    forall deps :: IsCandidate(tasks, scopes, g, results, t, s, deps) ==> Found(bindings, deps)
  }

  ghost predicate Found(bindings: seq<(map<TaskId, InstanceId>, map<TaskId, InstanceId>)>,
                        deps: map<TaskId, InstanceId>) {
    exists k :: 0 <= k < |bindings| && bindings[k].0 == deps
  }

  method CandidateInstanceBindings(tasks: Tasks, scopes: map<ScopeId, InputScope>, instances: map<InstanceId, Instance>,
                                   results: map<InstanceId, Payload>, t: TaskId, s: ScopeId, cache: Cache)
    returns (bindings: seq<(map<TaskId, InstanceId>, map<TaskId, InstanceId>)>, cache': Cache)
    requires Searchable(tasks, scopes, GraphOf(instances)) && CacheOk(GraphOf(instances), cache) && t in tasks
    requires s in scopes
    ensures CacheOk(GraphOf(instances), cache')
    ensures FindsCandidates(tasks, scopes, GraphOf(instances), results, t, s, bindings)
  {
    ghost var g := GraphOf(instances);
    assert Closed(g) && RoutesOk(tasks) && ScopesOk(tasks, scopes, g);
    ConsistentFrom(tasks, scopes, g);
    hide Searchable, Consistent, RoutesOk, ScopesOk, CacheOk, FindsCandidates;
    cache' := cache;
    if tasks[t].dependsOn == [] {
      bindings := IndependentBindings(tasks, scopes, g, results, t, s);
      return;
    }
    var owner := TaskControlOwner(tasks, t);
    var lists := CandidateLists(tasks, scopes, instances, results, t, s, owner);
    if lists.None? {
      NoCandidateFound(tasks, scopes, g, results, t, s);
      return [], cache';
    }
    bindings, cache' := KeepCombinations(tasks, scopes, instances, results, t, s, owner, lists.value, cache');
  }

  lemma NoCandidateFound(tasks: Tasks, scopes: map<ScopeId, InputScope>, g: Graph, results: map<InstanceId, Payload>,
                         t: TaskId, s: ScopeId)
    requires Closed(g) && forall deps :: !IsCandidate(tasks, scopes, g, results, t, s, deps)
    ensures FindsCandidates(tasks, scopes, g, results, t, s, [])
  {
  }

  // A task without dependencies.
  method IndependentBindings(tasks: Tasks, scopes: map<ScopeId, InputScope>, ghost g: Graph,
                             ghost results: map<InstanceId, Payload>, t: TaskId, s: ScopeId)
    returns (bindings: seq<(map<TaskId, InstanceId>, map<TaskId, InstanceId>)>)
    requires Closed(g) && RoutesOk(tasks) && ScopesOk(tasks, scopes, g) && t in tasks && s in scopes
    requires tasks[t].dependsOn == []
    ensures FindsCandidates(tasks, scopes, g, results, t, s, bindings)
  {
    hide IsCandidate, MergedActivation, RoutesOk, ScopesOk, FindsCandidates;
    var base := BaseInputScopeId(tasks, scopes, g);
    NoDependencies(tasks, scopes, g, results, t, s);
    bindings := [];
    if s == base || t in scopes[s].seeds {
      bindings := [(map[], map[])];
    }
    IndependentFound(tasks, scopes, g, results, t, s, bindings);
  }

  lemma IndependentFound(tasks: Tasks, scopes: map<ScopeId, InputScope>, g: Graph, results: map<InstanceId, Payload>,
                         t: TaskId, s: ScopeId, bindings: seq<(map<TaskId, InstanceId>, map<TaskId, InstanceId>)>)
    requires Closed(g) && s in scopes && DepsIn(g, map[]) && MergedActivation(tasks, g, t, map[], map[])
    requires forall deps :: IsCandidate(tasks, scopes, g, results, t, s, deps) <==>
      deps == map[] && (s == BASE || t in scopes[s].seeds)
    requires bindings == if s == BASE || t in scopes[s].seeds then [(map[], map[])] else []
    ensures FindsCandidates(tasks, scopes, g, results, t, s, bindings)
  {
    hide IsCandidate, MergedActivation;
    if bindings != [] {
      assert bindings[0] == (map[], map[]);
      assert Found(bindings, map[]);
    }
  }

  // The candidate instances for each dependency; None as soon as one dependency has none.
  method CandidateLists(tasks: Tasks, scopes: map<ScopeId, InputScope>, instances: map<InstanceId, Instance>,
                        results: map<InstanceId, Payload>, t: TaskId, s: ScopeId,
                        owner: Option<TaskId>) returns (r: Option<seq<seq<InstanceId>>>)
    requires RoutesOk(tasks) && ScopesOk(tasks, scopes, GraphOf(instances)) && Closed(GraphOf(instances))
    requires t in tasks && s in scopes && owner == ControlOwner(tasks, t)
    ensures r.Some? ==> |r.value| == |tasks[t].dependsOn|
    ensures r.Some? ==> ListsCandidates(tasks, scopes, GraphOf(instances), results, t, s, r.value)
    ensures r.None? ==> forall deps :: !IsCandidate(tasks, scopes, GraphOf(instances), results, t, s, deps)
  {
    hide RoutesOk, ScopesOk, MayFill, IsCandidate;
    ghost var g := GraphOf(instances);
    var lists: seq<seq<InstanceId>> := [];
    for k := 0 to |tasks[t].dependsOn|
      invariant |lists| == k && ListsCandidates(tasks, scopes, g, results, t, s, lists)
    {
      var found := DependencyCandidateInstances(tasks, scopes, instances, results, t, s, tasks[t].dependsOn[k].task,
        owner);
      if found == [] {
        NothingFills(tasks, scopes, g, results, t, s, k);
        return None;
      }
      lists := lists + [found];
    }
    r := Some(lists);
  }

  // The loop over the product of the candidate lists.
  method KeepCombinations(tasks: Tasks, scopes: map<ScopeId, InputScope>, instances: map<InstanceId, Instance>,
                          results: map<InstanceId, Payload>, t: TaskId, s: ScopeId, owner: Option<TaskId>,
                          lists: seq<seq<InstanceId>>, cache: Cache)
    returns (bindings: seq<(map<TaskId, InstanceId>, map<TaskId, InstanceId>)>, cache': Cache)
    requires Consistent(tasks, GraphOf(instances)) && CacheOk(GraphOf(instances), cache)
    requires t in tasks && s in scopes && owner == ControlOwner(tasks, t)
    requires |lists| == |tasks[t].dependsOn| && ListsCandidates(tasks, scopes, GraphOf(instances), results, t, s, lists)
    ensures CacheOk(GraphOf(instances), cache')
    ensures FindsCandidates(tasks, scopes, GraphOf(instances), results, t, s, bindings)
  {
    hide CacheOk, Keeps, RoutesOk, AllActivationsOk, Coherent, Upstream, MayFill, MergedActivation, ListsCandidates,
      FindsCandidates, Found;
    assert Closed(GraphOf(instances));
    hide IsBinding, Consistent, IsChoice;
    ghost var g := GraphOf(instances);
    var combos := Product(lists);
    bindings := [];
    cache' := cache;
    for k := 0 to |combos|
      invariant CacheOk(g, cache')
      invariant forall b :: b in bindings ==> IsBinding(tasks, scopes, g, results, t, s, b.0, b.1)
      invariant forall j, deps :: 0 <= j < k && Keeps(tasks, scopes, g, t, s, combos[j], deps) ==> Found(bindings, deps)
    {
      var c := combos[k];
      ProductMember(lists, c);
      ChoiceIn(tasks, scopes, g, results, t, s, lists, c);
      var r;
      r, cache' := TryCombination(tasks, scopes, instances, t, s, owner, c, cache');
      if r.Some? {
        KeptIsBinding(tasks, scopes, g, results, t, s, lists, c, r.value);
        FoundGrows(bindings, r.value);
        bindings := bindings + [r.value];
      }
    }
    AllFound(tasks, scopes, g, results, t, s, lists, bindings);
  }

  // The product misses no valid binding.
  lemma AllFound(tasks: Tasks, scopes: map<ScopeId, InputScope>, g: Graph, results: map<InstanceId, Payload>, t: TaskId,
                 s: ScopeId, lists: seq<seq<InstanceId>>,
                 bindings: seq<(map<TaskId, InstanceId>, map<TaskId, InstanceId>)>)
    requires Closed(g) && t in tasks && s in scopes && |lists| == |tasks[t].dependsOn|
    requires ListsCandidates(tasks, scopes, g, results, t, s, lists)
    requires forall b :: b in bindings ==> IsBinding(tasks, scopes, g, results, t, s, b.0, b.1)
    requires forall j, deps :: 0 <= j < |Product(lists)| && Keeps(tasks, scopes, g, t, s, Product(lists)[j], deps) ==>
      Found(bindings, deps)
    ensures FindsCandidates(tasks, scopes, g, results, t, s, bindings)
  {
    hide IsBinding, IsCandidate, ListsCandidates, Keeps, Found, IsChoice;
    forall deps | IsCandidate(tasks, scopes, g, results, t, s, deps)
      ensures Found(bindings, deps)
    {
      var c := CandidateIsKept(tasks, scopes, g, results, t, s, lists, deps);
      ProductMember(lists, c);
    }
  }

  lemma FoundGrows(bindings: seq<(map<TaskId, InstanceId>, map<TaskId, InstanceId>)>,
                   b: (map<TaskId, InstanceId>, map<TaskId, InstanceId>))
    ensures forall deps :: Found(bindings, deps) ==> Found(bindings + [b], deps)
    ensures Found(bindings + [b], b.0)
  {
    assert (bindings + [b])[|bindings|] == b;
    forall deps | Found(bindings, deps)
      ensures Found(bindings + [b], deps)
    {
      var k :| 0 <= k < |bindings| && bindings[k].0 == deps;
      assert (bindings + [b])[k].0 == deps;
    }
  }

  lemma ChoiceIn(tasks: Tasks, scopes: map<ScopeId, InputScope>, g: Graph, results: map<InstanceId, Payload>, t: TaskId,
                 s: ScopeId, lists: seq<seq<InstanceId>>, c: seq<InstanceId>)
    requires t in tasks && s in scopes && |lists| == |tasks[t].dependsOn|
    requires ListsCandidates(tasks, scopes, g, results, t, s, lists) && IsChoice(lists, c)
    ensures AllIn(g, c) && |c| == |tasks[t].dependsOn|
    ensures forall k :: 0 <= k < |c| ==> g[c[k]].task == tasks[t].dependsOn[k].task
  {
    forall k | 0 <= k < |c|
      ensures c[k] in g && g[c[k]].task == tasks[t].dependsOn[k].task
    {
      assert c[k] in lists[k];
    }
  }

  lemma NothingFills(tasks: Tasks, scopes: map<ScopeId, InputScope>, g: Graph, results: map<InstanceId, Payload>,
                     t: TaskId, s: ScopeId, k: nat)
    requires Closed(g) && t in tasks && s in scopes && k < |tasks[t].dependsOn|
    requires forall x :: !MayFill(tasks, scopes, g, results, t, s, tasks[t].dependsOn[k].task, x)
    ensures forall deps :: !IsCandidate(tasks, scopes, g, results, t, s, deps)
  {
    hide MayFill;
    forall deps
      ensures !IsCandidate(tasks, scopes, g, results, t, s, deps)
    {
      var d := tasks[t].dependsOn[k].task;
      assert d in DepTasks(tasks[t]);
      assert d in deps ==> !MayFill(tasks, scopes, g, results, t, s, d, deps[d]);
    }
  }

  // A task without dependencies is instantiated in the base scope and where it is a seed.
  lemma NoDependencies(tasks: Tasks, scopes: map<ScopeId, InputScope>, g: Graph, results: map<InstanceId, Payload>,
                       t: TaskId, s: ScopeId)
    requires Closed(g) && RoutesOk(tasks) && t in tasks && s in scopes && tasks[t].dependsOn == []
    ensures forall deps :: IsCandidate(tasks, scopes, g, results, t, s, deps) <==>
      deps == map[] && (s == BASE || t in scopes[s].seeds)
    ensures MergedActivation(tasks, g, t, map[], map[])
  {
    assert DepTasks(tasks[t]) == {};
    if ControlOwner(tasks, t).Some? {
      OwnerIsDependency(tasks, t);
    }
    assert UpstreamOf(g, map[]) == {};
  }
}
