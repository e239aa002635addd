// Validation of a task pool and selection of the part a run freezes.
module TaskPool {
  import opened Domain
  import opened Closure
  import opened TaskGraph

  // ---------- ancestors ----------

  lemma AncestorFound(tasks: Tasks, t: TaskId, current: TaskId, dep: Dependency)
    requires t in tasks && current in tasks && dep in tasks[current].dependsOn && dep.task in tasks
    requires current == t || Reaches(DependsMap(tasks), t, current)
    ensures Reaches(DependsMap(tasks), t, dep.task)
  {
    hide Reaches;
    assert dep.task in DependsMap(tasks)[current];
    ReachesStep(DependsMap(tasks), current, dep.task);
    if current != t {
      ReachesTransitive(DependsMap(tasks), t, current, dep.task);
    }
  }

  // Worklist over dependencies. It runs before the cycle check, so it must stop on cycles too.
  method CollectAncestors(tasks: Tasks, t: TaskId) returns (ancestors: set<TaskId>)
    requires t in tasks
    ensures ancestors == Ancestors(tasks, t)
  {
    hide Reaches;
    ghost var edges := DependsMap(tasks);
    ancestors := {};
    var stack := [t];
    while stack != []
      invariant forall x :: x in stack ==> x == t || x in ancestors
      invariant forall x :: x in ancestors ==> x in tasks && Reaches(edges, t, x)
      invariant forall x :: (x == t || x in ancestors) && x !in stack ==> edges[x] <= ancestors
      decreases tasks.Keys - ancestors, |stack|
    {
      var current := stack[|stack| - 1];
      stack := stack[..|stack| - 1];
      ghost var before := ancestors;
      ghost var rest := stack;
      var dependsOn := tasks[current].dependsOn;
      for k := 0 to |dependsOn|
        invariant before <= ancestors && rest <= stack
        invariant ancestors == before ==> stack == rest
        invariant forall x :: x in stack ==> x in rest || x in ancestors
        invariant forall x :: x in ancestors ==> x in tasks && Reaches(edges, t, x)
        invariant forall x :: x in ancestors && x !in before ==> x in stack
        invariant forall j :: 0 <= j < k && dependsOn[j].task in tasks ==> dependsOn[j].task in ancestors
      {
        var d := dependsOn[k].task;
        if d in tasks && d !in ancestors {
          AncestorFound(tasks, t, current, dependsOn[k]);
          ancestors := ancestors + {d};
          stack := stack + [d];
        }
      }
    }
    forall a | Reaches(edges, t, a)
      ensures a in ancestors
    {
      ReachesStaysIn(edges, ancestors, t, a);
    }
  }

  // ---------- cycles ----------

  // order lists every node once, after the nodes it leads to.
  ghost predicate IsFinishOrder(edges: Edges, order: seq<TaskId>) {
    NoDuplicates(order) &&
    forall k :: 0 <= k < |order| ==> order[k] in edges && edges[order[k]] <= Elements(order[..k])
  }

  lemma FinishOrderRanks(edges: Edges, order: seq<TaskId>)
    requires IsFinishOrder(edges, order) && Elements(order) == edges.Keys
    ensures Acyclic(edges)
  {
    var rank: map<TaskId, nat> := map t | t in edges :: IndexOf(order, t);
    forall a, b | a in edges && b in edges[a]
      ensures b in edges && rank[b] < rank[a]
    {
      assert order[rank[a]] == a;
      assert b in order[..rank[a]];
      var k :| 0 <= k < rank[a] && order[k] == b;
      assert order[rank[b]] == b;
    }
    assert Ranks(edges, rank);
  }

  ghost function IndexOf(order: seq<TaskId>, t: TaskId): (k: nat)
    requires t in order
    ensures k < |order| && order[k] == t
  {
    var k :| 0 <= k < |order| && order[k] == t;
    k
  }

  lemma ChainMeetsItself(edges: Edges, path: seq<TaskId>, t: TaskId)
    requires IsChain(edges, path + [t]) && t in path
    ensures Reaches(edges, t, t)
  {
    var k :| 0 <= k < |path| && path[k] == t;
    ChainTail(edges, path + [t], k);
    assert ChainFromTo(edges, (path + [t])[k..], t, t);
  }

  // Depth-first search that keeps the tasks being visited and the tasks done with.
  class CycleCheck {
    const tasks: Tasks
    var visited: set<TaskId>
    var active: set<TaskId>
    ghost var order: seq<TaskId>

    constructor (tasks: Tasks)
      ensures this.tasks == tasks && visited == {} && active == {} && Valid()
    {
      this.tasks := tasks;
      visited := {};
      active := {};
      order := [];
    }

    ghost predicate Valid()
      reads this
    {
      visited == Elements(order) && IsFinishOrder(DependsMap(tasks), order) &&
      visited !! active && active <= tasks.Keys
    }

    // path holds the active tasks, each depending on the next. A false answer means a cycle.
    method Visit(t: TaskId, ghost path: seq<TaskId>) returns (ok: bool)
      requires Valid() && t in tasks
      requires active == Elements(path) && IsChain(DependsMap(tasks), path + [t])
      modifies this
      ensures ok ==> Valid() && active == old(active) && old(visited) <= visited && t in visited
      ensures !ok ==> exists c :: Reaches(DependsMap(tasks), c, c)
      decreases tasks.Keys - active
    {
      ghost var edges := DependsMap(tasks);
      if t in visited {
        return true;
      }
      if t in active {
        ChainMeetsItself(edges, path, t);
        return false;
      }
      active := active + {t};
      var dependsOn := tasks[t].dependsOn;
      for k := 0 to |dependsOn|
        invariant Valid() && active == old(active) + {t} && old(visited) <= visited
        invariant forall j :: 0 <= j < k && dependsOn[j].task in tasks ==> dependsOn[j].task in visited
      {
        var d := dependsOn[k].task;
        if d in tasks {
          assert d in edges[t];
          ChainJoin(edges, path + [t], [d]);
          ok := Visit(d, path + [t]);
          if !ok {
            return false;
          }
        }
      }
      active := active - {t};
      visited := visited + {t};
      assert edges[t] <= Elements(order);
      assert order == (order + [t])[..|order|];
      assert forall j :: 0 <= j < |order| ==> (order + [t])[..j] == order[..j];
      order := order + [t];
      ok := true;
    }
  }

  // Validation passes exactly when the dependency relation has a topological rank.
  method ValidateCycles(tasks: Tasks) returns (ok: bool)
    ensures ok <==> Acyclic(DependsMap(tasks))
  {
    var check := new CycleCheck(tasks);
    var todo := tasks.Keys;
    while todo != {}
      invariant check.Valid() && check.active == {} && check.tasks == tasks
      invariant todo <= tasks.Keys && tasks.Keys - todo <= check.visited
    {
      var t :| t in todo;
      todo := todo - {t};
      ok := check.Visit(t, []);
      if !ok {
        ghost var c :| Reaches(DependsMap(tasks), c, c);
        if Acyclic(DependsMap(tasks)) {
          AcyclicIrreflexive(DependsMap(tasks), c);
        }
        return;
      }
    }
    FinishOrderRanks(DependsMap(tasks), check.order);
    ok := true;
  }

  // ---------- control edges ----------

  lemma NoDuplicatesConcat<T>(a: seq<T>, b: seq<T>)
    ensures NoDuplicates(a + b) <==> NoDuplicates(a) && NoDuplicates(b) && forall x :: x in a ==> x !in b
  {
    var c := a + b;
    assert forall j :: 0 <= j < |a| ==> c[j] == a[j];
    assert forall k :: 0 <= k < |b| ==> c[|a| + k] == b[k];
    if NoDuplicates(c) {
      forall j, k | 0 <= j < |a| && 0 <= k < |b|
        ensures a[j] != b[k]
      {
        assert c[j] != c[|a| + k];
      }
      forall j, k | 0 <= j < k < |b|
        ensures b[j] != b[k]
      {
        assert c[|a| + j] != c[|a| + k];
      }
      forall j, k | 0 <= j < k < |a|
        ensures a[j] != a[k]
      {
        assert c[j] != c[k];
      }
    }
    if NoDuplicates(a) && NoDuplicates(b) && forall x :: x in a ==> x !in b {
      forall j, k | 0 <= j < k < |c|
        ensures c[j] != c[k]
      {
        if |a| <= j {
          assert c[j] == b[j - |a|] && c[k] == b[k - |a|];
        } else if |a| <= k {
          assert c[j] in a && c[k] in b;
        }
      }
    }
  }

  lemma {:induction false} RouteTargetsAppend(routes: seq<Route>, r: Route)
    ensures RouteTargets(routes + [r]) == RouteTargets(routes) + r.targets
  {
    if routes == [] {
      assert (routes + [r])[1..] == [];
    } else {
      assert (routes + [r])[1..] == routes[1..] + [r];
      RouteTargetsAppend(routes[1..], r);
    }
  }

  // The edges from c to these targets are new, distinct and well formed.
  ghost predicate OwnedEdgesOk(tasks: Tasks, c: TaskId, targets: seq<TaskId>, claimed: set<TaskId>) {
    NoDuplicates(targets) &&
    forall t :: t in targets ==> t in tasks && t !in claimed && c in DepTasks(tasks[t])
  }

  // The check made of each route and of the stop targets.
  method ClaimOwned(tasks: Tasks, c: TaskId, targets: seq<TaskId>, routed: map<TaskId, TaskId>)
    returns (ok: bool, routed': map<TaskId, TaskId>)
    ensures ok <==> OwnedEdgesOk(tasks, c, targets, routed.Keys)
    ensures ok ==> routed'.Keys == routed.Keys + Elements(targets)
  {
    routed' := routed;
    for k := 0 to |targets|
      invariant OwnedEdgesOk(tasks, c, targets[..k], routed.Keys)
      invariant routed'.Keys == routed.Keys + Elements(targets[..k])
    {
      var t := targets[k];
      assert targets[..k + 1] == targets[..k] + [t];
      if t !in tasks || t in routed' || c !in DepTasks(tasks[t]) {
        if t in targets[..k] {
          ghost var j :| 0 <= j < k && targets[j] == t;
        }
        ok := false;
        return;
      }
      routed' := routed'[t := c];
    }
    assert targets[..|targets|] == targets;
    ok := true;
  }

  lemma OwnedEdgesAppend(tasks: Tasks, c: TaskId, a: seq<TaskId>, b: seq<TaskId>, claimed: set<TaskId>)
    ensures OwnedEdgesOk(tasks, c, a + b, claimed)
      <==> OwnedEdgesOk(tasks, c, a, claimed) && OwnedEdgesOk(tasks, c, b, claimed + Elements(a))
  {
    NoDuplicatesConcat(a, b);
    assert forall t :: t in a + b <==> t in a || t in b;
  }

  // What one controller adds to the edges claimed so far.
  ghost predicate Claims(tasks: Tasks, c: TaskId, claimed: set<TaskId>)
    requires c in tasks
  {
    ControllerOk(tasks, c) && claimed !! Elements(ControlTargets(tasks[c]))
  }

  method ClaimRoutes(tasks: Tasks, c: TaskId, routes: seq<Route>, routed: map<TaskId, TaskId>)
    returns (ok: bool, routed': map<TaskId, TaskId>)
    ensures ok <==> OwnedEdgesOk(tasks, c, RouteTargets(routes), routed.Keys)
    ensures ok ==> routed'.Keys == routed.Keys + Elements(RouteTargets(routes))
  {
    routed' := routed;
    for k := 0 to |routes|
      invariant OwnedEdgesOk(tasks, c, RouteTargets(routes[..k]), routed.Keys)
      invariant routed'.Keys == routed.Keys + Elements(RouteTargets(routes[..k]))
    {
      ghost var upTo := RouteTargets(routes[..k]);
      assert routes[..k + 1] == routes[..k] + [routes[k]];
      RouteTargetsAppend(routes[..k], routes[k]);
      OwnedEdgesAppend(tasks, c, upTo, routes[k].targets, routed.Keys);
      ok, routed' := ClaimOwned(tasks, c, routes[k].targets, routed');
      if !ok {
        RouteTargetsSplit(routes, k + 1);
        OwnedEdgesAppend(tasks, c, upTo + routes[k].targets, RouteTargets(routes[k + 1..]), routed.Keys);
        return;
      }
    }
    assert routes[..|routes|] == routes;
    ok := true;
  }

  lemma {:induction false} RouteTargetsSplit(routes: seq<Route>, k: nat)
    requires k <= |routes|
    ensures RouteTargets(routes) == RouteTargets(routes[..k]) + RouteTargets(routes[k..])
  {
    if k == 0 {
      assert routes[..0] == [] && routes[0..] == routes;
    } else {
      assert routes[..k] == routes[..k - 1] + [routes[k - 1]];
      RouteTargetsAppend(routes[..k - 1], routes[k - 1]);
      RouteTargetsSplit(routes, k - 1);
      assert routes[k - 1..][1..] == routes[k..];
    }
  }

  ghost predicate ContinueEdgesOk(tasks: Tasks, c: TaskId, targets: seq<TaskId>, claimed: set<TaskId>) {
    NoDuplicates(targets) &&
    forall t :: t in targets ==> t in tasks && t !in claimed && IsAncestor(tasks, t, c)
  }

  // The loop over continue targets: seeds of the next iteration must be ancestors of the controller.
  method ClaimContinues(tasks: Tasks, c: TaskId, continues: seq<TaskId>, routed: map<TaskId, TaskId>)
    returns (ok: bool, routed': map<TaskId, TaskId>)
    requires c in tasks
    ensures ok <==> ContinueEdgesOk(tasks, c, continues, routed.Keys)
    ensures ok ==> routed'.Keys == routed.Keys + Elements(continues)
  {
    var ancestors := CollectAncestors(tasks, c);
    routed' := routed;
    for k := 0 to |continues|
      invariant ContinueEdgesOk(tasks, c, continues[..k], routed.Keys)
      invariant routed'.Keys == routed.Keys + Elements(continues[..k])
    {
      var t := continues[k];
      assert continues[..k + 1] == continues[..k] + [t];
      if t !in tasks || t in routed' || t !in ancestors {
        if t in continues[..k] {
          ghost var j :| 0 <= j < k && continues[j] == t;
        }
        ok := false;
        return;
      }
      routed' := routed'[t := c];
    }
    assert continues[..|continues|] == continues;
    ok := true;
  }

  method ClaimController(tasks: Tasks, c: TaskId, routed: map<TaskId, TaskId>)
    returns (ok: bool, routed': map<TaskId, TaskId>)
    requires c in tasks
    ensures ok <==> Claims(tasks, c, routed.Keys)
    ensures ok ==> routed'.Keys == routed.Keys + Elements(ControlTargets(tasks[c]))
  {
    match tasks[c].control
    case None =>
      ok, routed' := true, routed;
    case Some(RouteMode(routes)) =>
      ok, routed' := ClaimRoutes(tasks, c, routes, routed);
    case Some(LoopMode(continues, stops)) =>
      NoDuplicatesConcat(stops, continues);
      assert forall t :: t in ControlTargets(tasks[c]) <==> t in stops || t in continues;
      ok, routed' := ClaimOwned(tasks, c, stops, routed);
      if ok {
        ok, routed' := ClaimContinues(tasks, c, continues, routed');
      }
  }

  // The order in which controllers are looked at does not matter to the answer.
  method ValidateControllerRoutes(tasks: Tasks) returns (ok: bool)
    ensures ok <==> RoutesOk(tasks)
  {
    var routed: map<TaskId, TaskId> := map[];
    var todo := tasks.Keys;
    ghost var seen: set<TaskId> := {};
    while todo != {}
      invariant seen == tasks.Keys - todo && todo <= tasks.Keys
      invariant forall c :: c in seen ==> ControllerOk(tasks, c)
      invariant forall c, c', t {:trigger NamesBoth(tasks, c, c', t)} ::
        c in seen && c' in seen && NamesBoth(tasks, c, c', t) ==> c == c'
      invariant forall t :: t in routed <==> exists c :: c in seen && t in ControlTargets(tasks[c])
    {
      var c :| c in todo;
      ok, routed := ClaimController(tasks, c, routed);
      if !ok {
        if RoutesOk(tasks) {
          assert forall c', t :: c' in seen && t in ControlTargets(tasks[c']) ==> !NamesBoth(tasks, c, c', t);
        }
        return;
      }
      todo := todo - {c};
      seen := seen + {c};
    }
    ok := true;
  }

  method ValidateDependenciesExist(tasks: Tasks) returns (ok: bool)
    ensures ok <==> DepsExist(tasks)
  {
    var todo := tasks.Keys;
    while todo != {}
      invariant todo <= tasks.Keys
      invariant forall t :: t in tasks && t !in todo ==> DepTasks(tasks[t]) <= tasks.Keys
    {
      var t :| t in todo;
      todo := todo - {t};
      var dependsOn := tasks[t].dependsOn;
      for k := 0 to |dependsOn|
        invariant forall j :: 0 <= j < k ==> dependsOn[j].task in tasks
      {
        if dependsOn[k].task !in tasks {
          assert dependsOn[k].task in DepTasks(tasks[t]);
          return false;
        }
      }
    }
    ok := true;
  }

  // Dependencies, control edges and cycles, in that order.
  method ValidateTaskGraph(tasks: Tasks) returns (ok: bool)
    ensures ok <==> ValidTasks(tasks)
  {
    ok := ValidateDependenciesExist(tasks);
    if ok {
      ok := ValidateControllerRoutes(tasks);
    }
    if ok {
      ok := ValidateCycles(tasks);
    }
  }

  // ---------- selection ----------

  method AsSequence(s: set<TaskId>) returns (r: seq<TaskId>)
    ensures Elements(r) == s
  {
    r := [];
    var todo := s;
    while todo != {}
      invariant Elements(r) == s - todo && todo <= s
    {
      var x :| x in todo;
      todo := todo - {x};
      r := r + [x];
    }
  }

  // The roots asked for by name or by label.
  function RootIds(pool: Tasks, roots: set<TaskId>, labels: set<string>): set<TaskId> {
    roots + set t | t in pool && pool[t].labels * labels != {}
  }

  // Asked for by name, or in the pool and carrying one of the labels.
  ghost predicate IsRoot(pool: Tasks, roots: set<TaskId>, labels: set<string>, t: TaskId) {
    t in roots || (t in pool && exists l :: l in labels && l in pool[t].labels)
  }

  lemma RootsIff(pool: Tasks, roots: set<TaskId>, labels: set<string>)
    ensures forall t :: t in RootIds(pool, roots, labels) <==> IsRoot(pool, roots, labels, t)
  {
    forall t, l | t in pool && l in labels && l in pool[t].labels
      ensures t in RootIds(pool, roots, labels)
    {
      assert l in pool[t].labels * labels;
    }
  }

  // Everything needed from the roots is in the pool.
  ghost predicate AllPresent(pool: Tasks, roots: set<TaskId>) {
    forall t :: Needed(pool, roots, t) ==> t in pool
  }

  // The part of the pool on exactly what the roots need.
  ghost predicate IsLeastSelection(part: Tasks, pool: Tasks, roots: set<TaskId>) {
    IsSelection(part, pool) && forall t :: t in part <==> Needed(pool, roots, t)
  }

  // Any set that contains the roots, what its tasks depend on and what they control contains the selection.
  lemma LeastSelectionIsLeast(part: Tasks, pool: Tasks, roots: set<TaskId>, S: set<TaskId>)
    requires IsLeastSelection(part, pool, roots)
    requires roots <= S
    requires forall t, dep :: t in S && t in pool && dep in pool[t].dependsOn ==> dep.task in S
    requires forall t, c :: t in S && t in pool && c in ControlTargets(pool[t]) ==> c in S
    ensures part.Keys <= S
  {
    assert ClosedUnder(NeedsMap(pool), S) by {
      forall t, n | t in S && t in NeedsMap(pool) && n in NeedsMap(pool)[t]
        ensures n in S
      {
        if n in DepTasks(pool[t]) {
          var k :| 0 <= k < |pool[t].dependsOn| && pool[t].dependsOn[k].task == n;
          assert pool[t].dependsOn[k] in pool[t].dependsOn;
        }
      }
    }
    forall t | t in part
      ensures t in S
    {
      if t !in roots {
        var root :| root in roots && Reaches(NeedsMap(pool), root, t);
        var m := ReachesUnfold(NeedsMap(pool), root, t);
        ReachesStaysIn(NeedsMap(pool), S, root, t);
      }
    }
  }

  // Each entry of the worklist and each selected task is needed, and what they need is not lost.
  ghost predicate Frontier(pool: Tasks, roots: set<TaskId>, selected: Tasks, waiting: set<TaskId>) {
    selected.Keys <= pool.Keys &&
    (forall t :: t in selected ==> selected[t] == pool[t]) &&
    (forall t :: t in selected.Keys + waiting ==> Needed(pool, roots, t)) &&
    roots <= selected.Keys + waiting &&
    forall t :: t in selected ==> NeedsMap(pool)[t] <= selected.Keys + waiting
  }

  lemma FrontierStep(pool: Tasks, roots: set<TaskId>, selected: Tasks, waiting: set<TaskId>, t: TaskId)
    requires Frontier(pool, roots, selected, waiting + {t}) && t in pool && t !in selected
    ensures Frontier(pool, roots, selected[t := pool[t]], waiting + NeedsMap(pool)[t])
  {
    forall n | n in NeedsMap(pool)[t]
      ensures Needed(pool, roots, n)
    {
      NeededStep(pool, roots, t, n);
    }
  }

  lemma FrontierDone(pool: Tasks, roots: set<TaskId>, selected: Tasks)
    requires Frontier(pool, roots, selected, {})
    ensures IsLeastSelection(selected, pool, roots) && AllPresent(pool, roots)
  {
    forall t | Needed(pool, roots, t)
      ensures t in selected
    {
      if t !in roots {
        var root :| root in roots && Reaches(NeedsMap(pool), root, t);
        ReachesStaysIn(NeedsMap(pool), selected.Keys, root, t);
      }
    }
  }

  // The least closed set that contains the roots; an error exactly when there is no root or the
  // closure names a task the pool does not have.
  method SelectSubgraph(pool: Tasks, roots: set<TaskId>, labels: set<string>) returns (r: Result<Tasks>)
    ensures r.Ok? <==> RootIds(pool, roots, labels) != {} && AllPresent(pool, RootIds(pool, roots, labels))
    ensures r.Ok? ==> IsLeastSelection(r.value, pool, RootIds(pool, roots, labels))
    ensures r.Ok? ==> forall t :: IsRoot(pool, roots, labels, t) ==> t in r.value
    ensures (forall t :: !IsRoot(pool, roots, labels, t)) ==> r.Error?
  {
    RootsIff(pool, roots, labels);
    hide Frontier, Needed, RootIds, IsLeastSelection, IsRoot;
    var rootIds := RootIds(pool, roots, labels);
    if rootIds == {} {
      return Error("at least one root task id or label is required");
    }
    var selected: Tasks := map[];
    var stack := AsSequence(rootIds);
    FrontierStart(pool, rootIds);
    while stack != []
      invariant Frontier(pool, rootIds, selected, Elements(stack))
      decreases pool.Keys - selected.Keys, |stack|
    {
      var t := stack[|stack| - 1];
      assert stack == stack[..|stack| - 1] + [t];
      stack := stack[..|stack| - 1];
      FrontierPop(pool, rootIds, selected, stack, t);
      if t in selected {
        continue;
      }
      if t !in pool {
        return Error("task does not exist");
      }
      FrontierStep(pool, rootIds, selected, Elements(stack), t);
      assert t in pool.Keys - selected.Keys;
      selected := selected[t := pool[t]];
      assert t !in pool.Keys - selected.Keys;
      var needed := DependencyTasks(pool[t]) + ControlTargets(pool[t]);
      assert Elements(stack + needed) == Elements(stack) + NeedsMap(pool)[t];
      stack := stack + needed;
    }
    assert Elements(stack) == {};
    FrontierDone(pool, rootIds, selected);
    RootsSelected(selected, pool, rootIds);
    return Ok(selected);
  }

  lemma RootsSelected(part: Tasks, pool: Tasks, roots: set<TaskId>)
    requires IsLeastSelection(part, pool, roots)
    ensures roots <= part.Keys
  {
    assert forall t :: t in roots ==> Needed(pool, roots, t);
  }

  // The tasks depended on, in the order and as often as they are named.
  function DependencyTasks(task: Task): (r: seq<TaskId>)
    ensures Elements(r) == DepTasks(task)
  {
    var r := seq(|task.dependsOn|, k requires 0 <= k < |task.dependsOn| => task.dependsOn[k].task);
    assert forall k :: 0 <= k < |r| ==> r[k] == task.dependsOn[k].task;
    r
  }

  lemma NeededStep(pool: Tasks, roots: set<TaskId>, t: TaskId, n: TaskId)
    requires Needed(pool, roots, t) && t in pool && n in NeedsMap(pool)[t]
    ensures Needed(pool, roots, n)
  {
    ReachesStep(NeedsMap(pool), t, n);
    if t !in roots {
      var root :| root in roots && Reaches(NeedsMap(pool), root, t);
      ReachesTransitive(NeedsMap(pool), root, t, n);
    }
  }

  lemma FrontierStart(pool: Tasks, roots: set<TaskId>)
    ensures Frontier(pool, roots, map[], roots)
  {
  }

  // Taking t from the worklist.
  lemma FrontierPop(pool: Tasks, roots: set<TaskId>, selected: Tasks, rest: seq<TaskId>, t: TaskId)
    requires Frontier(pool, roots, selected, Elements(rest + [t]))
    ensures Frontier(pool, roots, selected, Elements(rest) + {t}) && Needed(pool, roots, t)
    ensures selected.Keys <= pool.Keys
    ensures t in selected ==> Frontier(pool, roots, selected, Elements(rest))
  {
    assert Elements(rest + [t]) == Elements(rest) + {t};
    assert t in selected ==> selected.Keys + (Elements(rest) + {t}) == selected.Keys + Elements(rest);
  }
}
