// What the visits of sync, in the order of the task ids, make of an iteration.
module SyncVisits {
  import opened Domain
  import opened Closure
  import opened TaskGraph
  import opened InstanceGraph
  import opened Iterations
  import opened TaskOrder
  import opened ControlEnvelope
  import opened RunState
  import opened Invariants
  import opened RunTheorems
  import opened RunSteps
  import opened ClosedRuns
  import opened SeedOrder

  // New instances are of these tasks and in these scopes.
  ghost predicate NewOnlyAt(st: State, st': State, ts: set<TaskId>, ss: set<ScopeId>) {
    forall i :: i in st'.instances && i !in st.instances ==>
      st'.instances[i].binding.task in ts && st'.instances[i].binding.scope in ss
  }

  // Every valid binding there was for t in s has its instance in the end.
  ghost predicate Filled(st: State, st': State, t: TaskId, s: ScopeId) {
    Closed(GraphOf(st.instances)) &&
    forall deps :: IsCandidate(st.tasks, st.scopes, GraphOf(st.instances), st.results, t, s, deps) ==>
      Key(t, deps, s) in KeysOfInstances(st'.instances)
  }

  lemma InstanceOfKey(st: State, t: TaskId, deps: map<TaskId, InstanceId>, s: ScopeId) returns (i: InstanceId)
    requires Key(t, deps, s) in KeysOfInstances(st.instances)
    ensures i in st.instances && st.instances[i].binding.task == t
    ensures st.instances[i].binding.deps == deps && st.instances[i].binding.scope == s
  {
    i :| i in st.instances && KeyOf(st.instances[i].binding) == Key(t, deps, s);
  }

  lemma PresentGrows(st: State, st': State, t: TaskId, s: ScopeId)
    requires GrowsInstances(st, st')
    ensures HasInScope(GraphOf(st.instances), t, s) ==> HasInScope(GraphOf(st'.instances), t, s)
  {
    var g, g' := GraphOf(st.instances), GraphOf(st'.instances);
    if y :| y in g && g[y].task == t && g[y].scope == s {
      assert g'[y] == g[y];
    }
  }

  lemma PresentElsewhere(st: State, st': State, ts: set<TaskId>, ss: set<ScopeId>, t: TaskId, s: ScopeId)
    requires GrowsInstances(st, st') && NewOnlyAt(st, st', ts, ss) && s !in ss
    ensures HasInScope(GraphOf(st'.instances), t, s) ==> HasInScope(GraphOf(st.instances), t, s)
  {
    var g, g' := GraphOf(st.instances), GraphOf(st'.instances);
    if y :| y in g' && g'[y].task == t && g'[y].scope == s {
      assert g[y] == g'[y];
    }
  }

  // ---------- one scope ----------

  ghost predicate EmptyScope(st: State, s: ScopeId) {
    forall i :: i in st.instances ==> st.instances[i].binding.scope != s
  }

  // The state after visiting ts in s.
  ghost predicate ScopeSoFar(start: State, st: State, s: ScopeId, ts: set<TaskId>) {
    GrowsInstances(start, st) && NewOnlyAt(start, st, ts, {s}) && (SeedsOrdered(st.tasks) ==> AllCaught(st, s, ts))
  }

  lemma ScopeStarts(st: State, s: ScopeId)
    ensures ScopeSoFar(st, st, s, {})
  {
  }

  // In the order of visits, what t depends on between the seeds has been made anew before t is visited.
  lemma DepsCaught(st: State, s: ScopeId, order: seq<TaskId>, k: nat)
    requires Inv(st) && s in st.scopes && Sorted(order) && Elements(order) == st.tasks.Keys && k < |order|
    requires SeedsOrdered(st.tasks) && AllCaught(st, s, Elements(order[..k]))
    ensures AllCaught(st, s, DepTasks(st.tasks[order[k]]))
  {
    hide Inv, Between, GraphOk, InstancesOk, ControlOk, StoreOk, HasInScope, WellFormed;
    InvParts(st);
    GraphParts(st);
    forall d | d in DepTasks(st.tasks[order[k]])
      ensures Caught(st, s, d)
    {
      assert d in st.tasks;
      if s != BASE && Between(st.tasks, st.scopes[s].seeds, d) {
        var c := SeedsOf(st, s);
        assert DependsOnBetween(st.tasks, c, d, order[k]);
        VisitedBefore(order, k, d);
      }
    }
  }

  // The controller whose continue targets are the seeds of s.
  lemma SeedsOf(st: State, s: ScopeId) returns (c: TaskId)
    requires ScopesOk(st.tasks, st.scopes, GraphOf(st.instances)) && s in st.scopes && s != BASE
    ensures c in st.tasks && st.scopes[s].seeds == ContinueTargets(st.tasks[c])
    ensures
      var creator := st.scopes[s].creator;
      creator.Some? && creator.value in st.instances && st.instances[creator.value].binding.task == c
  {
    assert ScopeOk(st.tasks, st.scopes, GraphOf(st.instances), s);
    c := GraphOf(st.instances)[st.scopes[s].creator.value].task;
  }

  lemma NextCaught(before: State, after: State, s: ScopeId, t: TaskId)
    requires Inv(before) && Ordered(before) && s in before.scopes && t in before.tasks
    requires SeedsOrdered(before.tasks) && AllCaught(before, s, DepTasks(before.tasks[t]))
    requires GrowsInstances(before, after) && NewOnlyAt(before, after, {t}, {s}) && Filled(before, after, t, s)
    ensures Caught(after, s, t)
  {
    hide Inv, GraphOk, InstancesOk, ControlOk, StoreOk, WellFormed, Between, Clean, AllCaught, IsCandidate,
      KeysOfInstances;
    InvParts(before);
    if s != BASE && Between(before.tasks, before.scopes[s].seeds, t) && HasInScope(GraphOf(after.instances), t, BASE) {
      var c := SeedsOf(before, s);
      PresentElsewhere(before, after, {t}, {s}, t, BASE);
      var x :| x in GraphOf(before.instances) && GraphOf(before.instances)[x].task == t &&
        GraphOf(before.instances)[x].scope == BASE;
      var deps := CaughtCandidate(before, t, s, x);
      var i := InstanceOfKey(after, t, deps, s);
      assert GraphOf(after.instances)[i].task == t && GraphOf(after.instances)[i].scope == s;
    }
  }

  lemma CaughtGrows(before: State, after: State, s: ScopeId, u: TaskId, ts: set<TaskId>)
    requires GrowsInstances(before, after) && NewOnlyAt(before, after, ts, {s}) && Caught(before, s, u)
    ensures Caught(after, s, u)
  {
    hide Between, HasInScope;
    PresentGrows(before, after, u, s);
    if s != BASE {
      PresentElsewhere(before, after, ts, {s}, u, BASE);
    }
  }

  // ---------- the visits together ----------

  lemma ScopeNext(start: State, before: State, after: State, s: ScopeId, order: seq<TaskId>, k: nat)
    requires Inv(before) && Ordered(before) && s in before.scopes
    requires Sorted(order) && Elements(order) == before.tasks.Keys && k < |order|
    requires ScopeSoFar(start, before, s, Elements(order[..k]))
    requires GrowsInstances(before, after) && NewOnlyAt(before, after, {order[k]}, {s})
    requires Filled(before, after, order[k], s)
    ensures ScopeSoFar(start, after, s, Elements(order[..k + 1]))
  {
    hide Inv, Ordered, SeedsOrdered, Caught, Filled;
    var t, ts, ts' := order[k], Elements(order[..k]), Elements(order[..k + 1]);
    assert order[..k + 1] == order[..k] + [t];
    assert ts' == ts + {t};
    NewJoin(start, before, after, ts, {t}, s);
    if SeedsOrdered(after.tasks) {
      DepsCaught(before, s, order, k);
      forall u | u in ts'
        ensures Caught(after, s, u)
      {
        if u == t {
          NextCaught(before, after, s, t);
        } else {
          CaughtGrows(before, after, s, u, {t});
        }
      }
    }
  }

  lemma NewJoin(start: State, before: State, after: State, ts: set<TaskId>, ts': set<TaskId>, s: ScopeId)
    requires GrowsInstances(start, before) && NewOnlyAt(start, before, ts, {s})
    requires GrowsInstances(before, after) && NewOnlyAt(before, after, ts', {s})
    ensures GrowsInstances(start, after) && NewOnlyAt(start, after, ts + ts', {s})
  {
    forall i | i in after.instances && i !in start.instances
      ensures after.instances[i].binding.task in ts + ts' && after.instances[i].binding.scope in {s}
    {
      if i in before.instances {
        assert after.instances[i] == before.instances[i];
      }
    }
  }

  // ---------- scopes that sync opens ----------

  ghost predicate OpenedBy(st: State, x: InstanceId, s: ScopeId) {
    s in st.scopes && s != BASE && st.scopes[s].creator == Some(x)
  }

  lemma ScopeOf(start: State, mid: State, x: InstanceId) returns (s: ScopeId)
    requires Inv(mid) && GrowsScopes(start, mid) && MayOpenScope(start, x) && !MayOpenScope(mid, x)
    ensures OpenedBy(mid, x, s) && s !in start.scopes && x in mid.instances
    ensures mid.instances[x].binding.task in mid.tasks
    ensures mid.scopes[s].seeds == ContinueTargets(mid.tasks[mid.instances[x].binding.task])
  {
    hide Inv, Continues;
    InvParts(mid);
    assert OwnsScope(mid.scopes, x);
    s :| s in mid.scopes && mid.scopes[s].creator == Some(x);
    assert s != BASE;
    assert ScopeOk(mid.tasks, mid.scopes, GraphOf(mid.instances), s);
  }

  lemma FreshIsEmpty(start: State, mid: State, s: ScopeId)
    requires Inv(start) && GrowsScopes(start, mid) && s !in start.scopes
    ensures EmptyScope(mid, s)
  {
    hide Inv;
    InstancesInScopes(start);
  }

  lemma InstancesInScopes(st: State)
    requires Inv(st)
    ensures forall i :: i in st.instances ==> st.instances[i].binding.scope in st.scopes
  {
    hide Inv;
    forall i | i in st.instances
      ensures st.instances[i].binding.scope in st.scopes
    {
      ScopePresent(st, i);
    }
  }
}
