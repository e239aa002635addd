// The steps of a run as its methods take them, and what sync works towards.
module RunSteps {
  import opened Domain
  import opened Closure
  import opened TaskGraph
  import opened InstanceGraph
  import opened Iterations
  import opened ControlEnvelope
  import opened BindingTrees
  import opened RunState
  import opened Invariants
  import opened Preservation
  import opened RunTheorems
  import opened RunProgress
  import opened Bindings
  import opened CandidateSearch
  import opened TaskOrder

  // ---------- a run so far ----------

  // If the order of visits suits the loops, nothing between seeds is taken from the base scope.
  ghost predicate Ordered(st: State) {
    SeedsOrdered(st.tasks) ==> Clean(st.tasks, st.scopes, GraphOf(st.instances))
  }

  ghost predicate AddsClean(st: State, b: Binding) {
    SeedsOrdered(st.tasks) ==> CleanBinding(st.tasks, st.scopes, GraphOf(st.instances), b)
  }

  ghost predicate RunOk(start: State, history: seq<Action>, st: State) {
    StartsRun(start) && IsRun(start, history, st) && Inv(st) && Ordered(st)
  }

  lemma OrderedStep(st: State, a: Action)
    requires Inv(st) && Enabled(st, a) && Ordered(st) && (a.AddInstance? ==> AddsClean(st, a.binding))
    requires Evolves(st, Next(st, a))
    ensures Ordered(Next(st, a))
  {
    hide Inv, SeedsOrdered, Clean, Enabled, Evolves, NewInstance;
    if a.AddInstance? {
      OrderedInstance(st, a.id, a.binding);
    } else {
      KeysKept(st, a);
      BindingsKept(st, Next(st, a));
      OrderedScopes(st, Next(st, a).scopes);
    }
  }

  lemma KeysKept(st: State, a: Action)
    requires Enabled(st, a) && !a.AddInstance?
    ensures Next(st, a).instances.Keys == st.instances.Keys
  {
    hide Finished, Recovered, Refreshed, Continues, NextInputs, MarkFailed, Aborted, Retried, Begun;
  }

  lemma BindingsKept(st: State, st': State)
    requires Evolves(st, st') && st'.instances.Keys == st.instances.Keys
    ensures GraphOf(st'.instances) == GraphOf(st.instances) && st'.tasks == st.tasks
    ensures forall s :: s in st.scopes ==> s in st'.scopes && st'.scopes[s] == st.scopes[s]
  {
  }

  // Every instance lies in a scope there already was.
  lemma OrderedScopes(st: State, scopes: map<ScopeId, InputScope>)
    requires Inv(st) && forall s :: s in st.scopes ==> s in scopes && scopes[s] == st.scopes[s]
    ensures Clean(st.tasks, st.scopes, GraphOf(st.instances)) ==> Clean(st.tasks, scopes, GraphOf(st.instances))
  {
    hide Inv, GraphOk, InstancesOk, ControlOk, StoreOk, WellFormed, ValidTasks, ScopesOk, TakenAnew;
    InvParts(st);
    GraphParts(st);
    var g := GraphOf(st.instances);
    if Clean(st.tasks, st.scopes, g) {
      forall i | i in g
        ensures CleanBinding(st.tasks, scopes, g, g[i])
      {
        assert BindingPlaced(st.tasks, st.scopes, g, g[i]) && CleanBinding(st.tasks, st.scopes, g, g[i]);
      }
    }
  }

  lemma OrderedInstance(st: State, id: InstanceId, b: Binding)
    requires Enabled(st, AddInstance(id, b)) && Ordered(st) && AddsClean(st, b)
    ensures Ordered(SetInstance(st, id, NewInstance(b), [InstanceCreated(id)]))
  {
    hide SeedsOrdered, Clean, CleanBinding, MergedActivation, Coherent, MayFill;
    GraphOfAdded(st.instances, id, b);
    if SeedsOrdered(st.tasks) {
      CleanAdded(st.tasks, st.scopes, GraphOf(st.instances), id, b);
    }
  }

  lemma Advance(start: State, history: seq<Action>, st: State, a: Action)
    requires RunOk(start, history, st) && Enabled(st, a) && (a.AddInstance? ==> AddsClean(st, a.binding))
    ensures RunOk(start, history + [a], Next(st, a)) && Evolves(st, Next(st, a))
  {
    hide StartsRun, IsRun, Inv, Enabled, Next, Evolves, Ordered;
    RunAppend(start, history, st, a);
    StepKeeps(st, a);
    OrderedStep(st, a);
  }

  lemma RunInv(start: State, history: seq<Action>, st: State)
    requires RunOk(start, history, st)
    ensures Inv(st)
  {
    hide StartsRun, IsRun, Inv;
  }

  lemma RunReachable(start: State, history: seq<Action>, st: State)
    requires RunOk(start, history, st)
    ensures Reachable(st)
  {
    hide StartsRun, IsRun, Inv;
  }

  ghost predicate MayOpenScope(st: State, x: InstanceId) {
    x in st.instances && st.instances[x].status == Done && Continues(st.tasks, GraphOf(st.instances), st.results, x) &&
    !OwnsScope(st.scopes, x)
  }

  // The scope that s becomes when x asks for another iteration.
  ghost predicate ScopeOpened(st: State, st': State, s: ScopeId, x: InstanceId) {
    x in st.instances && st.instances[x].binding.task in st.tasks && st.instances[x].binding.scope in st.scopes &&
    Continues(st.tasks, GraphOf(st.instances), st.results, x) &&
    st' == st.(scopes := st.scopes[s := ChildScope(st, x)], log := st.log + [ScopeCreated(s)])
  }

  lemma OpenScope(start: State, history: seq<Action>, st: State, s: ScopeId, x: InstanceId)
    requires RunOk(start, history, st) && MayOpenScope(st, x) && forall s' :: s' in st.scopes ==> s' < s
    ensures st.instances[x].binding.scope in st.scopes && st.instances[x].binding.task in st.tasks
    ensures forall st' :: ScopeOpened(st, st', s, x) ==>
      RunOk(start, history + [NewScope(s, x)], st') && Stepped(st, NewScope(s, x), st')
  {
    hide RunOk, Inv, Continues, OwnsScope, Evolves, ChildScope;
    RunInv(start, history, st);
    ScopePresent(st, x);
    Advance(start, history, st, NewScope(s, x));
  }

  lemma StepTo(start: State, history: seq<Action>, st: State, a: Action, st': State)
    requires RunOk(start, history, st) && Stepped(st, a, st') && (a.AddInstance? ==> AddsClean(st, a.binding))
    ensures RunOk(start, history + [a], st') && Evolves(st, st')
  {
    hide RunOk, Enabled, Next, Evolves;
    Advance(start, history, st, a);
  }

  // ---------- what a part of the run has added ----------

  // after continues before with steps that all satisfy p.
  ghost predicate Continued(before: seq<Action>, after: seq<Action>, p: Action -> bool) {
    before <= after && forall k :: |before| <= k < |after| ==> p(after[k])
  }

  lemma ContinuedJoin(before: seq<Action>, mid: seq<Action>, after: seq<Action>, p: Action -> bool, q: Action -> bool)
    requires Continued(before, mid, p) && Continued(mid, after, q) && forall a :: q(a) ==> p(a)
    ensures Continued(before, after, p) && before <= mid <= after
  {
  }

  lemma ContinuedOne(before: seq<Action>, after: seq<Action>, a: Action, p: Action -> bool)
    requires before <= after && Continued(before, after, p) && p(a)
    ensures before <= after + [a] && Continued(before, after + [a], p)
  {
  }

  lemma ContinuedNone(history: seq<Action>, p: Action -> bool)
    ensures Continued(history, history, p)
  {
  }

  lemma ContinuedWider(before: seq<Action>, after: seq<Action>, p: Action -> bool, q: Action -> bool)
    requires Continued(before, after, p) && forall a :: p(a) ==> q(a)
    ensures Continued(before, after, q) && before <= after
  {
  }

  predicate IsCreation(a: Action) {
    a.NewScope? || a.AddInstance?
  }

  predicate IsRefresh(a: Action) {
    a.Refresh?
  }

  ghost predicate GrowsScopes(st: State, st': State) {
    st' == st.(scopes := st'.scopes, log := st'.log) &&
    forall s :: s in st.scopes ==> s in st'.scopes && st'.scopes[s] == st.scopes[s]
  }

  // Instances are added, all pending.
  ghost predicate GrowsInstances(st: State, st': State) {
    st' == st.(instances := st'.instances, log := st'.log) &&
    (forall i :: i in st.instances ==> i in st'.instances && st'.instances[i] == st.instances[i]) &&
    forall i :: i in st'.instances && i !in st.instances ==> st'.instances[i] == NewInstance(st'.instances[i].binding)
  }

  datatype Key = Key(task: TaskId, deps: map<TaskId, InstanceId>, scope: ScopeId)

  function KeyOf(b: Binding): Key {
    Key(b.task, b.deps, b.scope)
  }

  function KeysOfInstances(instances: map<InstanceId, Instance>): set<Key> {
    set i | i in instances :: KeyOf(instances[i].binding)
  }

  // Every valid binding of t in s has its instance.
  ghost predicate TaskSynced(st: State, t: TaskId, s: ScopeId) {
    Closed(GraphOf(st.instances)) &&
    forall deps :: IsCandidate(st.tasks, st.scopes, GraphOf(st.instances), st.results, t, s, deps) ==>
      Key(t, deps, s) in KeysOfInstances(st.instances)
  }

  ghost predicate AllSynced(st: State, ts: set<TaskId>, ss: set<ScopeId>) {
    forall t, s {:trigger TaskSynced(st, t, s)} :: t in ts && s in ss ==> TaskSynced(st, t, s)
  }

  // The fixpoint of sync: every controller that continues has its scope, every valid binding its instance.
  ghost predicate SyncClosed(st: State) {
    (forall x :: !MayOpenScope(st, x)) && AllSynced(st, st.tasks.Keys, st.scopes.Keys)
  }

  lemma SearchableRun(st: State)
    requires Inv(st)
    ensures Searchable(st.tasks, st.scopes, GraphOf(st.instances)) && Closed(GraphOf(st.instances))
    ensures RoutesOk(st.tasks)
  {
    hide ControlOk, InstancesOk, StoreOk;
  }

  // Valid bindings of a task stay valid when the task itself gets an instance.
  lemma BindingsSurvive(st: State, id: InstanceId, b: Binding, st': State, t: TaskId, s: ScopeId,
                        deps: map<TaskId, InstanceId>, activation: map<TaskId, InstanceId>)
    requires Inv(st) && Stepped(st, AddInstance(id, b), st') && b.task == t
    requires Closed(GraphOf(st.instances)) && Closed(GraphOf(st'.instances))
    requires IsBinding(st.tasks, st.scopes, GraphOf(st.instances), st.results, t, s, deps, activation)
    ensures IsBinding(st'.tasks, st'.scopes, GraphOf(st'.instances), st'.results, t, s, deps, activation)
  {
    hide Inv, Stepped, ValidTasks, Closed, IsCandidate, MergedActivation;
    var g, g' := GraphOf(st.instances), GraphOf(st'.instances);
    AddInstanceLeaves(st, id, b, st');
    GraphOfAdded(st.instances, id, b);
    TaskOfCandidate(st.tasks, st.scopes, g, st.results, t, s, deps);
    TasksValid(st);
    NotOwnDependency(st.tasks, t);
    CandidateSurvives(st.tasks, st.scopes, g, st.results, id, b, s, deps);
    MergedSurvives(st.tasks, g, id, b, t, deps, activation);
  }

  lemma TaskOfCandidate(tasks: Tasks, scopes: map<ScopeId, InputScope>, g: Graph, results: map<InstanceId, Payload>,
                        t: TaskId, s: ScopeId, deps: map<TaskId, InstanceId>)
    requires Closed(g) && IsCandidate(tasks, scopes, g, results, t, s, deps)
    ensures t in tasks && s in scopes && DepsIn(g, deps)
  {
    hide MayFill, Coherent;
  }

  lemma TasksValid(st: State)
    requires Inv(st)
    ensures ValidTasks(st.tasks)
  {
    hide ValidTasks, WellFormed, ScopesOk, ControlOk, InstancesOk, StoreOk;
  }

  lemma MergedSurvives(tasks: Tasks, g: Graph, id: InstanceId, b: Binding, t: TaskId, deps: map<TaskId, InstanceId>,
                       activation: map<TaskId, InstanceId>)
    requires id !in g && DepsIn(g, deps) && MergedActivation(tasks, g, t, deps, activation)
    ensures DepsIn(g[id := b], deps) && MergedActivation(tasks, g[id := b], t, deps, activation)
  {
    assert forall d :: d in deps ==> g[id := b][deps[d]] == g[deps[d]];
  }

  lemma AddInstanceLeaves(st: State, id: InstanceId, b: Binding, st': State)
    requires Stepped(st, AddInstance(id, b), st')
    ensures st'.tasks == st.tasks && st'.scopes == st.scopes && st'.results == st.results
    ensures st'.instances == st.instances[id := NewInstance(b)] && id !in st.instances && GrowsInstances(st, st')
  {
    hide IsCandidate, MergedActivation, Closed;
  }

  lemma NotOwnDependency(tasks: Tasks, t: TaskId)
    requires ValidTasks(tasks) && t in tasks
    ensures t !in DepTasks(tasks[t])
  {
    NotOwnAncestor(tasks, t);
    if t in DepTasks(tasks[t]) {
      DependencyIsAncestor(tasks, t, t);
    }
  }

  lemma CandidateSurvives(tasks: Tasks, scopes: map<ScopeId, InputScope>, g: Graph, results: map<InstanceId, Payload>,
                          id: InstanceId, b: Binding, s: ScopeId, deps: map<TaskId, InstanceId>)
    requires Closed(g) && Closed(g[id := b]) && id !in g && b.task in tasks && b.task !in DepTasks(tasks[b.task])
    requires IsCandidate(tasks, scopes, g, results, b.task, s, deps)
    ensures IsCandidate(tasks, scopes, g[id := b], results, b.task, s, deps)
  {
    var g' := g[id := b];
    forall d | d in deps
      ensures MayFill(tasks, scopes, g', results, b.task, s, d, deps[d])
    {
      assert MayFill(tasks, scopes, g, results, b.task, s, d, deps[d]);
      InScopeOfOther(g, id, b, d, s);
    }
    UpstreamOfExtends(g, g', deps);
    assert Coherent(g', UpstreamOf(g', deps)) by {
      UpstreamOfPresent(g, deps);
      assert forall x, y :: x in g && y in g && SameTask(g', x, y) ==> SameTask(g, x, y);
    }
  }

  lemma InScopeOfOther(g: Graph, id: InstanceId, b: Binding, d: TaskId, s: ScopeId)
    requires id !in g && d != b.task
    ensures HasInScope(g[id := b], d, s) <==> HasInScope(g, d, s)
  {
    if y :| y in g && g[y].task == d && g[y].scope == s {
      assert g[id := b][y] == g[y];
    }
  }

  lemma UpstreamOfPresent(g: Graph, deps: map<TaskId, InstanceId>)
    requires Closed(g) && DepsIn(g, deps)
    ensures forall x :: x in UpstreamOf(g, deps) ==> x in g
  {
    forall x | x in UpstreamOf(g, deps)
      ensures x in g
    {
      var d :| d in deps && x in Upstream(g, deps[d]);
      UpstreamPresent(g, deps[d], x);
    }
  }

  lemma NewKey(instances: map<InstanceId, Instance>, b: Binding, id: InstanceId)
    requires KeyOf(b) !in KeysOfInstances(instances)
    ensures forall i :: i in instances ==> !SameKey(GraphOf(instances)[i], b)
  {
    forall i | i in instances
      ensures !SameKey(GraphOf(instances)[i], b)
    {
      assert KeyOf(instances[i].binding) in KeysOfInstances(instances);
    }
  }

  lemma MayAdd(st: State, id: InstanceId, b: Binding)
    requires Closed(GraphOf(st.instances))
    requires IsBinding(st.tasks, st.scopes, GraphOf(st.instances), st.results, b.task, b.scope, b.deps, b.activation)
    requires forall i :: i in st.instances ==> i < id
    requires forall i :: i in st.instances ==> !SameKey(GraphOf(st.instances)[i], b)
    ensures Enabled(st, AddInstance(id, b))
  {
    hide MergedActivation;
    assert forall d :: d in b.deps ==>
      MayFill(st.tasks, st.scopes, GraphOf(st.instances), st.results, b.task, b.scope, d, b.deps[d]);
  }

  lemma ScopePresent(st: State, x: InstanceId)
    requires Inv(st) && x in st.instances
    ensures st.instances[x].binding.scope in st.scopes && st.instances[x].binding.task in st.tasks
  {
    hide ValidTasks, ScopesOk, ControlOk, StoreOk;
    assert BindingOk(st.tasks, st.scopes, GraphOf(st.instances), GraphOf(st.instances)[x]);
  }

  // ---------- the sync loop ----------

  lemma ScopeOpenedLeaves(st: State, s: ScopeId, x: InstanceId, st': State)
    requires Stepped(st, NewScope(s, x), st')
    ensures GrowsScopes(st, st') && s !in st.scopes
    ensures forall y :: OwnsScope(st'.scopes, y) <==> OwnsScope(st.scopes, y) || y == x
    ensures forall y :: MayOpenScope(st', y) <==> MayOpenScope(st, y) && y != x
  {
    hide Continues;
    assert st'.scopes[s].creator == Some(x);
    forall y
      ensures OwnsScope(st'.scopes, y) <==> OwnsScope(st.scopes, y) || y == x
    {
      if OwnsScope(st.scopes, y) {
        var s' :| s' in st.scopes && st.scopes[s'].creator == Some(y);
        assert st'.scopes[s'].creator == Some(y);
      }
    }
  }

  // The controllers whose next scope is still missing.
  ghost function Outstanding(st: State): set<InstanceId> {
    set x | x in st.instances && MayOpenScope(st, x)
  }

  // New instances are pending, so they ask for no scope.
  lemma GrowthOpensNothing(st: State, st': State)
    requires GrowsInstances(st, st') && forall x :: !MayOpenScope(st, x)
    ensures forall x :: !MayOpenScope(st', x)
  {
    forall x
      ensures !MayOpenScope(st', x)
    {
      if x in st.instances {
        assert st'.instances[x] == st.instances[x];
        assert MayOpenScope(st', x) ==> MayOpenScope(st, x);
      }
    }
  }

  ghost function Room(st: State, rank: map<TaskId, nat>): int
    requires DepsExist(st.tasks) && Ranks(DependsMap(st.tasks), rank)
  {
    |AllTrees(st.tasks, rank, st.scopes.Keys)| - |st.instances|
  }

  lemma RoomLeft(st: State, rank: map<TaskId, nat>)
    requires Inv(st) && DepsExist(st.tasks) && Ranks(DependsMap(st.tasks), rank)
    ensures Room(st, rank) >= 0
  {
    hide ControlOk, InstancesOk, StoreOk, ScopesOk, ValidTasks;
    GraphParts(st);
    forall i | i in GraphOf(st.instances)
      ensures GraphOf(st.instances)[i].scope in st.scopes.Keys
    {
      assert BindingPlaced(st.tasks, st.scopes, GraphOf(st.instances), GraphOf(st.instances)[i]);
    }
    InstancesBounded(st.tasks, rank, st.scopes.Keys, GraphOf(st.instances));
    assert GraphOf(st.instances).Keys == st.instances.Keys;
    assert |GraphOf(st.instances)| == |st.instances|;
  }

  lemma RankOf(st: State) returns (rank: map<TaskId, nat>)
    requires Inv(st)
    ensures DepsExist(st.tasks) && Ranks(DependsMap(st.tasks), rank)
  {
    hide WellFormed, ScopesOk, ControlOk, InstancesOk, StoreOk, RoutesOk;
    rank :| Ranks(DependsMap(st.tasks), rank);
  }

  lemma SameKeysSameInstances(st: State, st': State)
    requires GrowsInstances(st, st')
    ensures st'.instances.Keys == st.instances.Keys ==> st'.instances == st.instances
  {
  }

  lemma MoreInstances(st: State, st': State)
    requires GrowsInstances(st, st') && st'.instances != st.instances
    ensures |st'.instances| > |st.instances|
  {
    SameKeysSameInstances(st, st');
    var more := st'.instances.Keys - st.instances.Keys;
    assert st'.instances.Keys == st.instances.Keys + more && more != {};
  }

  // What sync does when it visits these tasks in these scopes.
  ghost predicate Visited(st: State, st': State, ts: set<TaskId>, ss: set<ScopeId>, created: bool) {
    GrowsInstances(st, st') && (created <==> st'.instances != st.instances) &&
    (!created ==> st' == st && AllSynced(st, ts, ss)) &&
    (AllSynced(st, ts, ss) ==> !created)
  }

  lemma NothingVisited(st: State, ts: set<TaskId>, ss: set<ScopeId>)
    requires ts == {} || ss == {}
    ensures Visited(st, st, ts, ss, false)
  {
  }

  // Visiting more tasks of one scope, or the same tasks in one more scope.
  lemma VisitMore(a: State, b: State, c: State, ts: set<TaskId>, ss: set<ScopeId>, ts': set<TaskId>, ss': set<ScopeId>,
                  ts'': set<TaskId>, ss'': set<ScopeId>, first: bool, second: bool)
    requires Visited(a, b, ts, ss, first) && Visited(b, c, ts', ss', second)
    requires forall t, s :: t in ts'' && s in ss'' <==> (t in ts && s in ss) || (t in ts' && s in ss')
    ensures Visited(a, c, ts'', ss'', first || second)
  {
    hide TaskSynced;
    if AllSynced(a, ts'', ss'') {
      assert AllSynced(a, ts, ss);
    }
    if !first && !second {
      assert AllSynced(a, ts'', ss'');
    }
    if first || second {
      NotSame(a, b, c);
    }
  }

  lemma NotSame(a: State, b: State, c: State)
    requires GrowsInstances(a, b) && GrowsInstances(b, c) && (a.instances != b.instances || b.instances != c.instances)
    ensures a.instances != c.instances
  {
    if a.instances != b.instances {
      MoreInstances(a, b);
    }
    if b.instances != c.instances {
      MoreInstances(b, c);
    }
  }

  lemma KeysGrow(instances: map<InstanceId, Instance>, id: InstanceId, b: Binding)
    requires id !in instances
    ensures KeysOfInstances(instances[id := NewInstance(b)]) == KeysOfInstances(instances) + {KeyOf(b)}
  {
    var instances' := instances[id := NewInstance(b)];
    forall i | i in instances
      ensures KeyOf(instances[i].binding) in KeysOfInstances(instances')
    {
      assert instances'[i] == instances[i];
    }
    assert KeyOf(instances'[id].binding) in KeysOfInstances(instances');
  }

  lemma GrowsReflexive(st: State)
    ensures GrowsInstances(st, st)
  {
  }

  lemma AddedGrows(start: State, st: State, id: InstanceId, b: Binding, st': State)
    requires GrowsInstances(start, st) && Stepped(st, AddInstance(id, b), st')
    ensures GrowsInstances(start, st') && st'.instances != start.instances
    ensures KeysOfInstances(st'.instances) == KeysOfInstances(st.instances) + {KeyOf(b)}
    ensures st'.instances == st.instances[id := NewInstance(b)] && id !in st.instances
    ensures st'.tasks == st.tasks && st'.scopes == st.scopes && st'.results == st.results
  {
    hide IsCandidate, MergedActivation;
    AddInstanceLeaves(st, id, b, st');
    KeysGrow(st.instances, id, b);
    assert id !in start.instances;
  }

  lemma ClosedRun(st: State)
    requires Inv(st)
    ensures Closed(GraphOf(st.instances))
  {
    SearchableRun(st);
  }

  lemma FoundAllSynced(st: State, t: TaskId, s: ScopeId,
                       bindings: seq<(map<TaskId, InstanceId>, map<TaskId, InstanceId>)>)
    requires Closed(GraphOf(st.instances))
    requires FindsCandidates(st.tasks, st.scopes, GraphOf(st.instances), st.results, t, s, bindings)
    requires forall k :: 0 <= k < |bindings| ==> Key(t, bindings[k].0, s) in KeysOfInstances(st.instances)
    ensures TaskSynced(st, t, s)
  {
    hide IsCandidate, IsBinding;
  }

  lemma SyncedFound(st: State, t: TaskId, s: ScopeId, deps: map<TaskId, InstanceId>,
                    activation: map<TaskId, InstanceId>)
    requires Closed(GraphOf(st.instances)) && TaskSynced(st, t, s)
    requires IsBinding(st.tasks, st.scopes, GraphOf(st.instances), st.results, t, s, deps, activation)
    ensures Key(t, deps, s) in KeysOfInstances(st.instances)
  {
    hide IsCandidate, MergedActivation;
  }

  // ---------- the refresh sweep ----------

  // What a sweep may change: statuses of instances that are pending, skipped or waiting.
  ghost predicate Sweeping(st: State, st': State) {
    st' == st.(instances := st'.instances, log := st'.log) && st'.instances.Keys == st.instances.Keys &&
    forall x :: x in st.instances ==> SweptFrom(st.instances[x], st'.instances[x])
  }

  ghost predicate SweptFrom(a: Instance, b: Instance) {
    b.binding == a.binding && b.attempt == a.attempt && b.published == a.published && b.session == a.session &&
    (a.status in {Runnable, Running, Done, Failed} ==> b.status == a.status) &&
    (b.status == Done ==> a.status == Done) && (b.status == Running ==> a.status == Running) &&
    (b.status == Failed ==> a.status == Failed)
  }

  ghost predicate Known(st: State, i: InstanceId) {
    i in st.instances && st.instances[i].binding.task in st.tasks
  }

  // Swept, of any state.
  ghost predicate SweptIn(st: State, i: InstanceId) {
    Known(st, i) && Swept(st, i)
  }

  lemma NothingSwept(st: State)
    ensures Sweeping(st, st)
  {
  }

  lemma SweepTransitive(a: State, b: State, c: State)
    requires Sweeping(a, b) && Sweeping(b, c)
    ensures Sweeping(a, c) && c.instances.Keys == b.instances.Keys
  {
    forall x | x in a.instances
      ensures SweptFrom(a.instances[x], c.instances[x])
    {
      assert SweptFrom(a.instances[x], b.instances[x]) && SweptFrom(b.instances[x], c.instances[x]);
    }
  }

  lemma RefreshedSwept(task: Task, instances: map<InstanceId, Instance>, interrupts: map<InterruptId, Interrupt>,
                       i: InstanceId)
    requires i in instances
    ensures
      var before, after := instances[i], Refreshed(task, instances, interrupts, i);
      SweptFrom(before, after) &&
      (after.status == Waiting ==> OpenBlocking(interrupts, i) != {}) &&
      (after.status == Pending ==>
        !DependenciesSatisfied(task, instances, before.binding.deps) &&
        !DependencyFailed(task, instances, before.binding.deps)) &&
      (after.status == Skipped && after.error == Some(UpstreamFailed) ==>
        DependencyFailed(task, instances, before.binding.deps))
  {
  }

  lemma DependenciesElsewhere(st: State, i: InstanceId)
    requires Inv(st) && i in st.instances
    ensures forall d :: d in st.instances[i].binding.deps ==>
      st.instances[i].binding.deps[d] in st.instances && st.instances[i].binding.deps[d] != i
    ensures Known(st, i) && st.instances[i].binding.deps.Keys == DepTasks(st.tasks[st.instances[i].binding.task])
  {
    hide ControlOk, InstancesOk, StoreOk, ScopesOk;
    GraphParts(st);
    assert BindingTyped(st.tasks, GraphOf(st.instances), GraphOf(st.instances)[i]);
  }

  // Satisfied dependencies are decided by done instances, which a sweep leaves alone.
  lemma SweepKeepsSatisfied(st: State, st': State, task: Task, deps: map<TaskId, InstanceId>)
    requires Sweeping(st, st')
    ensures DependenciesSatisfied(task, st'.instances, deps) <==> DependenciesSatisfied(task, st.instances, deps)
  {
    forall k | 0 <= k < |task.dependsOn|
      ensures DepSatisfied(st'.instances, deps, task.dependsOn[k]) <==>
        DepSatisfied(st.instances, deps, task.dependsOn[k])
    {
      var d := task.dependsOn[k].task;
      if d in deps && deps[d] in st.instances {
        assert SweptFrom(st.instances[deps[d]], st'.instances[deps[d]]);
      }
    }
  }

  lemma RefreshSweeps(st: State, i: InstanceId, st': State)
    requires Inv(st) && Stepped(st, Refresh(i), st')
    ensures Sweeping(st, st') && SweptIn(st', i)
    ensures forall x :: x != i && SweptIn(st, x) ==> SweptIn(st', x)
  {
    hide Inv, Stepped, Sweeping, Swept;
    RefreshIsSweep(st, i, st');
    RefreshIsSwept(st, i, st');
    forall x | x != i && SweptIn(st, x)
      ensures SweptIn(st', x)
    {
      SweptStays(st, i, st', x);
    }
  }

  lemma RefreshIsSweep(st: State, i: InstanceId, st': State)
    requires Stepped(st, Refresh(i), st')
    ensures Sweeping(st, st')
  {
    hide Refreshed;
    RefreshedSwept(st.tasks[st.instances[i].binding.task], st.instances, st.interrupts, i);
  }

  lemma RefreshIsSwept(st: State, i: InstanceId, st': State)
    requires Inv(st) && Stepped(st, Refresh(i), st') && Sweeping(st, st')
    ensures SweptIn(st', i)
  {
    hide Inv, Refreshed, Sweeping, HasFailedDependency, DependencyFailed;
    var inst := st.instances[i];
    var task := st.tasks[inst.binding.task];
    RefreshedSwept(task, st.instances, st.interrupts, i);
    DependenciesElsewhere(st, i);
    SweepKeepsSatisfied(st, st', task, inst.binding.deps);
    FailedIsUnfinished(st, i);
    FailedNamed(st, i);
    UnfinishedStays(st, st', i);
    FailedBefore(st, st', i);
  }

  lemma FailedNamed(st: State, i: InstanceId)
    requires Known(st, i) && st.instances[i].binding.deps.Keys == DepTasks(st.tasks[st.instances[i].binding.task])
    ensures HasFailedDependency(st, i) ==>
      DependencyFailed(st.tasks[st.instances[i].binding.task], st.instances, st.instances[i].binding.deps)
  {
    var task, deps := st.tasks[st.instances[i].binding.task], st.instances[i].binding.deps;
    if HasFailedDependency(st, i) {
      var d :| d in deps && deps[d] in st.instances && st.instances[deps[d]].status == Failed;
      var k :| 0 <= k < |task.dependsOn| && task.dependsOn[k].task == d;
      assert DepFailed(st.instances, deps, task.dependsOn[k]);
    }
  }

  lemma SweptNoneAwaits(st: State)
    requires forall i :: i in st.instances ==> SweptIn(st, i)
    ensures NoneAwaitsFailed(st)
  {
    hide HasFailedDependency;
    assert forall i :: i in st.instances ==> Known(st, i) && Swept(st, i);
  }

  lemma RestNoneAwaits(st: State)
    requires AtRest(st)
    ensures NoneAwaitsFailed(st)
  {
    hide HasFailedDependency;
    assert forall i :: i in st.instances ==> Swept(st, i);
  }

  // A sweep fails nothing.
  lemma FailedBefore(st: State, st': State, x: InstanceId)
    requires Sweeping(st, st') && x in st.instances && st'.instances[x].binding == st.instances[x].binding
    ensures HasFailedDependency(st', x) ==> HasFailedDependency(st, x)
  {
    if HasFailedDependency(st', x) {
      var deps := st.instances[x].binding.deps;
      var d :| d in deps && deps[d] in st'.instances && st'.instances[deps[d]].status == Failed;
      assert SweptFrom(st.instances[deps[d]], st'.instances[deps[d]]);
    }
  }

  lemma SweptStays(st: State, i: InstanceId, st': State, x: InstanceId)
    requires Stepped(st, Refresh(i), st') && Sweeping(st, st') && x != i && SweptIn(st, x)
    ensures SweptIn(st', x)
  {
    hide Refreshed, Sweeping, DependenciesSatisfied, HasUnfinishedDependency, HasFailedDependency;
    SweepKeepsSatisfied(st, st', st.tasks[st.instances[x].binding.task], st.instances[x].binding.deps);
    UnfinishedStays(st, st', x);
    FailedBefore(st, st', x);
  }

  lemma FailedIsUnfinished(st: State, i: InstanceId)
    requires Known(st, i)
    ensures DependencyFailed(st.tasks[st.instances[i].binding.task], st.instances, st.instances[i].binding.deps) ==>
      HasUnfinishedDependency(st, i)
  {
    var task, deps := st.tasks[st.instances[i].binding.task], st.instances[i].binding.deps;
    if DependencyFailed(task, st.instances, deps) {
      var k :| 0 <= k < |task.dependsOn| && DepFailed(st.instances, deps, task.dependsOn[k]);
      assert task.dependsOn[k].task in deps;
    }
  }

  lemma UnfinishedStays(st: State, st': State, x: InstanceId)
    requires Sweeping(st, st') && x in st.instances && st'.instances[x].binding == st.instances[x].binding
    ensures HasUnfinishedDependency(st, x) ==> HasUnfinishedDependency(st', x)
  {
    if HasUnfinishedDependency(st, x) {
      var deps := st.instances[x].binding.deps;
      var d :| d in deps && deps[d] in st.instances && st.instances[deps[d]].status != Done;
      assert SweptFrom(st.instances[deps[d]], st'.instances[deps[d]]);
    }
  }

  // ---------- the end of an attempt ----------

  lemma StoreBranches(results: map<InstanceId, Payload>, i: InstanceId)
    ensures StoreResult(results, i, None) == results - {i} && (results - {i}) - {i} == results - {i}
    ensures forall payload ::
      StoreResult(results, i, Some(payload)) == results[i := payload] &&
      results[i := payload] - {i} == results - {i}
    ensures StoreResult(results, i, StoredResult(results, i)) == results
  {
  }

  // st' differs from st only in that interrupts were marked applied.
  ghost predicate OnlyApplies(st: State, st': State) {
    st' == st.(interrupts := st'.interrupts, log := st'.log) && AppliedSome(st.interrupts, st'.interrupts)
  }

  // Every resolved interrupt of i is marked applied.
  function RepliesApplied(interrupts: map<InterruptId, Interrupt>, i: InstanceId): map<InterruptId, Interrupt> {
    map n | n in interrupts ::
      if interrupts[n].instance == i && interrupts[n].status == Resolved
      then interrupts[n].(status := InterruptStatus.Applied)
      else interrupts[n]
  }

  predicate IsApply(a: Action) {
    a.Apply?
  }

  lemma ApplyOnly(start: State, st: State, n: InterruptId, st': State)
    requires OnlyApplies(start, st) && Stepped(st, Apply(n), st')
    ensures OnlyApplies(start, st')
  {
  }

  // ---------- rounds of attempts ----------

  // What a worker and its runner leave behind: requests for help, the returned result, the files.
  datatype Outcome = Outcome(asks: seq<Interrupt>, result: NodeResult, dir: AttemptDir)

  function Added(before: seq<Action>, after: seq<Action>): seq<Action>
    requires before <= after
  {
    after[|before|..]
  }

  lemma AddedBegins(before: seq<Action>, mid: seq<Action>, after: seq<Action>)
    requires before <= mid <= after
    ensures before <= after
    ensures Begins(Added(before, after)) == Begins(Added(before, mid)) + Begins(Added(mid, after))
  {
    assert Added(before, after) == Added(before, mid) + Added(mid, after);
    BeginsJoin(Added(before, mid), Added(mid, after));
  }

  lemma {:induction false} NoBegins(actions: seq<Action>)
    requires forall k :: 0 <= k < |actions| ==> !actions[k].Begin?
    ensures Begins(actions) == []
  {
    if actions != [] {
      NoBegins(actions[1..]);
    }
  }

  // What followed upon a point of the history.
  lemma {:induction false} StateAt(start: State, history: seq<Action>, st: State, k: nat) returns (mid: State)
    requires IsRun(start, history, st) && k <= |history|
    ensures IsRun(start, history[..k], mid) && IsRun(mid, history[k..], st)
    decreases k
  {
    hide Enabled, Next;
    if k == 0 {
      assert history[..0] == [] && history[0..] == history;
      mid := start;
    } else {
      mid := StateAt(Next(start, history[0]), history[1..], st, k - 1);
      assert history[..k][0] == history[0] && history[..k][1..] == history[1..][..k - 1];
      assert history[1..][k - 1..] == history[k..];
    }
  }

  // In no stretch of the history without a reply was an instance attempted twice.
  ghost predicate OncePerStretch(history: seq<Action>) {
    forall j, k {:trigger history[j..k]} :: 0 <= j <= k <= |history| && AllQuiet(history[j..k]) ==>
      NoDuplicates(Begins(history[j..k]))
  }

  lemma AttemptedOnce(start: State, history: seq<Action>, st: State)
    requires RunOk(start, history, st)
    ensures OncePerStretch(history)
  {
    hide Inv, Ordered, AllQuiet, IsRun;
    forall j, k | 0 <= j <= k <= |history| && AllQuiet(history[j..k])
      ensures NoDuplicates(Begins(history[j..k]))
    {
      var end := StateAt(start, history, st, k);
      var first := StateAt(start, history[..k], end, j);
      assert history[..k][..j] == history[..j] && history[..k][j..] == history[j..k];
      InitialOk(start.tasks, start.userInputs);
      RunKeeps(start, history[..j], first);
      BegunOnce(first, history[j..k], end);
    }
  }

  lemma AttemptsOfRun(start: State, history: seq<Action>, st: State, history': seq<Action>, st': State)
    requires RunOk(start, history, st) && RunOk(start, history', st') && Continued(history, history', IsOrdinary)
    ensures |Begins(Added(history, history'))| <= |st'.instances| + Answers(Added(history, history'))
  {
    hide StartsRun, IsRun, Inv, RunOk;
    var added := Added(history, history');
    assert history' == history + added;
    StretchOfRun(start, history, st, added, st');
    assert AllOrdinary(added);
    AttemptsBounded(st, added, st');
  }

  lemma StretchOfRun(start: State, history: seq<Action>, st: State, added: seq<Action>, st': State)
    requires RunOk(start, history, st) && RunOk(start, history + added, st')
    ensures IsRun(st, added, st') && Reachable(st) && Reachable(st') && Inv(st) && Inv(st')
  {
    hide StartsRun, IsRun, Inv, Ordered;
    RunSplit(start, history, st, added, st');
  }

  // Only replies count.
  lemma AnswersCounted(before: seq<Action>, after: seq<Action>)
    requires before <= after
    ensures Answers(after) == Answers(before) + Answers(Added(before, after))
    ensures (forall k :: |before| <= k < |after| ==> !after[k].Answer?) ==> Answers(after) == Answers(before)
  {
    assert after == before + Added(before, after);
    AnswersJoin(before, Added(before, after));
    if forall k :: |before| <= k < |after| ==> !after[k].Answer? {
      assert forall k :: 0 <= k < |Added(before, after)| ==> Added(before, after)[k] == after[|before| + k];
      NoAnswers(Added(before, after));
    }
  }

  lemma {:induction false} NoAnswers(actions: seq<Action>)
    requires forall k :: 0 <= k < |actions| ==> !actions[k].Answer?
    ensures Answers(actions) == 0
  {
    if actions != [] {
      NoAnswers(actions[1..]);
    }
  }

  ghost predicate NothingRuns(st: State) {
    forall i :: i in st.instances ==> st.instances[i].status != Running
  }

  // A stretch of the loop that starts and ends with nothing in flight leaves nothing running that was not before.
  lemma NothingLeftRunning(start: State, history: seq<Action>, st: State, history': seq<Action>, st': State)
    requires RunOk(start, history, st) && RunOk(start, history', st') && Continued(history, history', IsOrdinary)
    requires st.live == map[] && st'.live == map[] && NothingRuns(st)
    ensures NothingRuns(st')
  {
    hide StartsRun, IsRun, Inv;
    var added := Added(history, history');
    assert history' == history + added;
    RunSplit(start, history, st, added, st');
    InFlightRun(st, added, st');
  }

  // At rest after a stretch of the loop, of a run that was never aborted, done is reported exactly when all is done.
  lemma ReportsDone(start: State, history: seq<Action>, st: State, history': seq<Action>, st': State)
    requires RunOk(start, history, st) && RunOk(start, history', st') && Continued(history, history', IsOrdinary)
    requires AtRest(st') && NeverAborted(st)
    ensures FinalStatus(Statuses(st'.instances)) == RunDone <==>
      forall i :: i in st'.instances ==> st'.instances[i].status == Done
  {
    hide StartsRun, IsRun, Inv, GraphOk, InstancesOk, AtRest, NeverAborted, FinalStatus, Statuses;
    var added := Added(history, history');
    assert history' == history + added;
    RunSplit(start, history, st, added, st');
    RunWithoutAbort(st, added, st');
    RunReachable(start, history', st');
    DoneMeansDone(st');
  }

  // Instance i is set and taken into or out of flight; all others stay.
  ghost predicate OnlyTouches(st: State, st': State, i: InstanceId, flying: set<InstanceId>) {
    st'.instances.Keys == st.instances.Keys && st'.live.Keys == flying && st'.tasks == st.tasks &&
    forall x :: x in st.instances && x != i ==> st'.instances[x] == st.instances[x]
  }

  // A round under way: these instances wait for their turn, those are in flight.
  ghost predicate InRound(st: State, waiting: set<InstanceId>, flying: set<InstanceId>) {
    flying == st.live.Keys && flying <= st.instances.Keys && waiting <= st.instances.Keys && flying !! waiting &&
    forall i :: i in waiting ==> st.instances[i].status == Runnable
  }

  lemma RoundGoesOn(st: State, st': State, i: InstanceId, waiting: set<InstanceId>, flying: set<InstanceId>,
                    flying': set<InstanceId>)
    requires InRound(st, waiting, flying) && i in st.instances && OnlyTouches(st, st', i, flying')
    requires flying' <= flying + {i}
    ensures InRound(st', waiting - {i}, flying')
  {
  }

  lemma BeginTouches(st: State, i: InstanceId, st': State)
    requires Stepped(st, Begin(i), st')
    ensures OnlyTouches(st, st', i, st.live.Keys + {i})
  {
  }

  lemma FinishTouches(st: State, mid: State, i: InstanceId, result: NodeResult, dir: AttemptDir, st': State)
    requires OnlyApplies(st, mid) && Stepped(mid, Finish(i, result, dir), st')
    ensures OnlyTouches(st, st', i, st.live.Keys - {i})
  {
    hide Finished;
  }

  lemma AskTouches(st: State, n: InterruptId, request: Interrupt, st': State)
    requires Stepped(st, Ask(n, request), st')
    ensures st'.instances == st.instances && st'.live == st.live && st'.tasks == st.tasks
  {
  }

  lemma RecoveredNotRunning(task: Task, interrupts: map<InterruptId, Interrupt>, i: InstanceId, inst: Instance,
                            stored: Option<Payload>, runtime: Runtime, dir: AttemptDir)
    ensures Recovered(task, interrupts, i, inst, stored, runtime, dir).instance.status != Running
  {
    hide Materialize, FirstNotProduced, MissingDecisions, OpenBlocking;
  }

  function AfterAbort(inst: Instance): Instance {
    if inst.status in {Done, Skipped, Failed} then inst else Aborted(inst)
  }

  predicate Recoverable(inst: Instance) {
    inst.status == Failed && inst.resumeRecommended
  }

  function AfterRequeue(inst: Instance): Instance {
    if Recoverable(inst) then Retried(inst) else inst
  }

  // Scopes and pending instances are added.
  ghost predicate GrowsBoth(st: State, st': State) {
    GrowsInstances(st.(scopes := st'.scopes), st') &&
    forall s :: s in st.scopes ==> s in st'.scopes && st'.scopes[s] == st.scopes[s]
  }

  // Scopes and instances are added and statuses swept; nothing else changes but the log.
  ghost predicate Refreshing(st: State, st': State) {
    st' == st.(scopes := st'.scopes, instances := st'.instances, log := st'.log) &&
    (forall s :: s in st.scopes ==> s in st'.scopes && st'.scopes[s] == st.scopes[s]) &&
    (forall x :: x in st.instances ==> x in st'.instances && SweptFrom(st.instances[x], st'.instances[x])) &&
    forall x :: x in st'.instances && x !in st.instances ==>
      SweptFrom(NewInstance(st'.instances[x].binding), st'.instances[x])
  }

  lemma RefreshingKeepsRunning(st: State, st': State)
    requires Refreshing(st, st')
    ensures st'.live == st.live
    ensures forall x :: x in st'.instances && st'.instances[x].status == Running ==>
      x in st.instances && st.instances[x].status == Running
  {
  }

  lemma SyncThenSweep(st: State, mid: State, st': State)
    requires GrowsBoth(st, mid) && Sweeping(mid, st')
    ensures Refreshing(st, st')
  {
    forall x | x in st.instances
      ensures x in st'.instances && SweptFrom(st.instances[x], st'.instances[x])
    {
      assert mid.instances[x] == st.instances[x] && SweptFrom(mid.instances[x], st'.instances[x]);
    }
    forall x | x in st'.instances && x !in st.instances
      ensures SweptFrom(NewInstance(st'.instances[x].binding), st'.instances[x])
    {
      assert SweptFrom(mid.instances[x], st'.instances[x]);
      assert mid.instances[x] == NewInstance(mid.instances[x].binding);
    }
  }

  // A sweep changes no graph and no result, so sync has nothing new to do after it.
  lemma SweepKeepsClosed(st: State, st': State)
    requires SyncClosed(st) && Sweeping(st, st')
    ensures SyncClosed(st')
  {
    assert GraphOf(st'.instances) == GraphOf(st.instances) by {
      assert forall x :: x in st.instances ==> SweptFrom(st.instances[x], st'.instances[x]);
    }
    assert KeysOfInstances(st'.instances) == KeysOfInstances(st.instances) by {
      KeysOfGraph(st.instances, st'.instances);
    }
    forall x
      ensures !MayOpenScope(st', x)
    {
      assert !MayOpenScope(st, x);
      if x in st.instances {
        assert SweptFrom(st.instances[x], st'.instances[x]);
      }
    }
    forall t, s | t in st'.tasks.Keys && s in st'.scopes.Keys
      ensures TaskSynced(st', t, s)
    {
      assert TaskSynced(st, t, s);
    }
  }

  lemma KeysOfGraph(a: map<InstanceId, Instance>, b: map<InstanceId, Instance>)
    requires GraphOf(a) == GraphOf(b)
    ensures KeysOfInstances(a) == KeysOfInstances(b)
  {
    forall i | i in GraphOf(a)
      ensures i in a && i in b && a[i].binding == b[i].binding
    {
      assert GraphOf(a)[i] == GraphOf(b)[i];
    }
    assert a.Keys == GraphOf(a).Keys && b.Keys == GraphOf(b).Keys;
  }

  // ---------- observations made by recovery ----------

  // What recovery finds out about an instance marked running.
  datatype Observation =
    | JustStarted
    | RuntimeLost
    | RunEnded(runtime: Runtime, dir: AttemptDir)
    | WorkerDead
    | Stale(reason: Termination)
    | Alive

  // The instance is left running.
  predicate SaidToRun(o: Observation) {
    o.JustStarted? || o.Alive?
  }

  predicate IsRecovery(a: Action) {
    a.GiveUp? || a.Recover?
  }

  // What recovery makes of a running instance.
  ghost function AfterRecovery(st: State, i: InstanceId, o: Observation): Instance
    requires Known(st, i)
  {
    var inst := st.instances[i];
    match o
    case JustStarted => inst
    case Alive => inst
    case RuntimeLost => MarkFailed(inst, RuntimeMissing, Orphaned, None, None, false)
    case WorkerDead => MarkFailed(inst, WorkerGone, Orphaned, None, None, false)
    case Stale(reason) => MarkFailed(inst, TerminationProblem(reason), reason, None, None, false)
    case RunEnded(runtime, dir) =>
      Recovered(st.tasks[inst.binding.task], st.interrupts, i, inst, StoredResult(st.results, i), runtime, dir).instance
  }

  // Instance i has been recovered; the other instances, their results and all interrupts are as before.
  ghost predicate RecoveredOne(st: State, st': State, i: InstanceId, o: Observation) {
    Known(st, i) && st'.instances == st.instances[i := AfterRecovery(st, i, o)] &&
    st'.interrupts == st.interrupts && st'.live == st.live && st'.tasks == st.tasks &&
    forall x :: x != i ==> StoredResult(st'.results, x) == StoredResult(st.results, x)
  }

  ghost predicate RecoveredIn(st: State, st': State, observe: InstanceId -> Observation, done: set<InstanceId>,
                              x: InstanceId) {
    Known(st, x) && x in st'.instances &&
    st'.instances[x] ==
      (if x in done && st.instances[x].status == Running then AfterRecovery(st, x, observe(x)) else st.instances[x]) &&
    (x !in done ==> StoredResult(st'.results, x) == StoredResult(st.results, x))
  }

  // The running instances among done have been recovered, each as if it were the only one.
  ghost predicate RecoveredAll(st: State, st': State, observe: InstanceId -> Observation, done: set<InstanceId>) {
    st'.instances.Keys == st.instances.Keys && st'.interrupts == st.interrupts && st'.live == st.live &&
    st'.tasks == st.tasks &&
    forall x :: x in st.instances ==> RecoveredIn(st, st', observe, done, x)
  }

  lemma NothingRecovered(st: State, observe: InstanceId -> Observation)
    requires Inv(st)
    ensures RecoveredAll(st, st, observe, {})
  {
    hide Inv;
    forall x | x in st.instances
      ensures Known(st, x)
    {
      ScopePresent(st, x);
    }
  }

  lemma RecoverMore(st: State, mid: State, st': State, observe: InstanceId -> Observation, done: set<InstanceId>,
                    i: InstanceId)
    requires RecoveredAll(st, mid, observe, done) && i in mid.instances && i !in done
    requires if mid.instances[i].status == Running then RecoveredOne(mid, st', i, observe(i)) else st' == mid
    ensures RecoveredAll(st, st', observe, done + {i})
  {
    hide Recovered, MarkFailed;
    assert RecoveredIn(st, mid, observe, done, i);
    forall x | x in st.instances
      ensures RecoveredIn(st, st', observe, done + {i}, x)
    {
      assert RecoveredIn(st, mid, observe, done, x);
    }
  }

  // After recovery only what was said to run still runs.
  lemma RecoveredRunning(st: State, st': State, observe: InstanceId -> Observation)
    requires RecoveredAll(st, st', observe, st.instances.Keys)
    ensures forall x :: x in st'.instances && st'.instances[x].status == Running ==>
      x in st.instances && SaidToRun(observe(x))
  {
    hide Recovered;
    forall x | x in st'.instances && st'.instances[x].status == Running
      ensures x in st.instances && SaidToRun(observe(x))
    {
      assert RecoveredIn(st, st', observe, st.instances.Keys, x);
      if observe(x).RunEnded? {
        RecoveredNotRunning(st.tasks[st.instances[x].binding.task], st.interrupts, x, st.instances[x],
          StoredResult(st.results, x), observe(x).runtime, observe(x).dir);
      }
    }
  }

  lemma GiveUpRecovers(st: State, i: InstanceId, problem: Problem, reason: Termination, o: Observation, st': State)
    requires Known(st, i)
    requires st' ==
      SetInstance(st, i, MarkFailed(st.instances[i], problem, reason, None, None, false), [BecameFailed(i)])
    requires AfterRecovery(st, i, o) == MarkFailed(st.instances[i], problem, reason, None, None, false)
    ensures RecoveredOne(st, st', i, o)
  {
    hide MarkFailed;
  }

  lemma EndedRecovers(st: State, i: InstanceId, runtime: Runtime, dir: AttemptDir, st': State)
    requires Known(st, i) && Stepped(st, Recover(i, runtime, dir), st')
    ensures RecoveredOne(st, st', i, RunEnded(runtime, dir))
  {
    hide Recovered;
  }
}
