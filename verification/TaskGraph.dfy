// What a set of tasks means: ancestors, control edges, and when the set is valid.
module TaskGraph {
  import opened Domain
  import opened Closure

  // ---------- dependencies ----------

  function DepTasks(task: Task): (r: set<TaskId>)
  {
    set k | 0 <= k < |task.dependsOn| :: task.dependsOn[k].task
  }

  ghost predicate DepsExist(tasks: Tasks) {
    forall t :: t in tasks ==> DepTasks(tasks[t]) <= tasks.Keys
  }

  // Each task leads to the tasks it depends on; dependencies outside the set are ignored.
  function DependsMap(tasks: Tasks): Edges {
    map t | t in tasks :: DepTasks(tasks[t]) * tasks.Keys
  }

  ghost predicate IsAncestor(tasks: Tasks, a: TaskId, t: TaskId) {
    Reaches(DependsMap(tasks), t, a)
  }

  ghost function Ancestors(tasks: Tasks, t: TaskId): set<TaskId> {
    set a | a in tasks && IsAncestor(tasks, a, t)
  }

  ghost function AncestorMap(tasks: Tasks, ds: set<TaskId>): map<TaskId, set<TaskId>> {
    map d | d in ds :: Ancestors(tasks, d)
  }

  ghost function JoinAll(f: map<TaskId, set<TaskId>>): set<TaskId> {
    set d, a | d in f && a in f[d] :: a
  }

  // The ancestors of a task are its dependencies and their ancestors.
  lemma AncestorsUnfold(tasks: Tasks, t: TaskId)
    requires DepsExist(tasks) && t in tasks
    ensures Ancestors(tasks, t) == DepTasks(tasks[t]) + JoinAll(AncestorMap(tasks, DepTasks(tasks[t])))
  {
    var edges := DependsMap(tasks);
    var above := AncestorMap(tasks, DepTasks(tasks[t]));
    forall a | a in Ancestors(tasks, t)
      ensures a in DepTasks(tasks[t]) + JoinAll(above)
    {
      var m := ReachesUnfold(edges, t, a);
      if m != a {
        assert a in above[m];
      }
    }
    forall a | a in DepTasks(tasks[t]) + JoinAll(above)
      ensures a in Ancestors(tasks, t)
    {
      if a in DepTasks(tasks[t]) {
        ReachesStep(edges, t, a);
      } else {
        var d :| d in above && a in above[d];
        ReachesStep(edges, t, d);
        ReachesTransitive(edges, t, d, a);
      }
    }
  }

  lemma AncestorTransitive(tasks: Tasks, a: TaskId, b: TaskId, c: TaskId)
    requires IsAncestor(tasks, a, b) && IsAncestor(tasks, b, c)
    ensures IsAncestor(tasks, a, c)
  {
    ReachesTransitive(DependsMap(tasks), c, b, a);
  }

  lemma DependencyIsAncestor(tasks: Tasks, d: TaskId, t: TaskId)
    requires t in tasks && d in tasks && d in DepTasks(tasks[t])
    ensures IsAncestor(tasks, d, t)
  {
    ReachesStep(DependsMap(tasks), t, d);
  }

  // ---------- control edges ----------

  function RouteTargets(routes: seq<Route>): seq<TaskId> {
    if routes == [] then [] else routes[0].targets + RouteTargets(routes[1..])
  }

  // Every task named by a control edge, in the order the edges are checked.
  function ControlTargets(task: Task): seq<TaskId> {
    match task.control
    case None => []
    case Some(RouteMode(routes)) => RouteTargets(routes)
    case Some(LoopMode(continues, stops)) => stops + continues
  }

  // The tasks a controller activates in its own scope: route targets or stop targets.
  function OwnedTargets(task: Task): seq<TaskId> {
    match task.control
    case None => []
    case Some(RouteMode(routes)) => RouteTargets(routes)
    case Some(LoopMode(_, stops)) => stops
  }

  function ContinueTargets(task: Task): seq<TaskId> {
    match task.control
    case Some(LoopMode(continues, _)) => continues
    case _ => []
  }

  lemma {:induction false} RouteTargetsMember(routes: seq<Route>, t: TaskId)
    ensures t in RouteTargets(routes) <==> exists k :: 0 <= k < |routes| && t in routes[k].targets
  {
    if routes != [] {
      RouteTargetsMember(routes[1..], t);
      assert forall k :: 0 < k < |routes| ==> routes[k] == routes[1..][k - 1];
      if t in RouteTargets(routes[1..]) {
        var k :| 0 <= k < |routes[1..]| && t in routes[1..][k].targets;
        assert t in routes[k + 1].targets;
      }
    }
  }

  // A task is a target of one route only.
  lemma {:induction false} RouteOfTarget(routes: seq<Route>, t: TaskId, j: nat, k: nat)
    requires NoDuplicates(RouteTargets(routes)) && j <= k < |routes|
    requires t in routes[j].targets && t in routes[k].targets
    ensures j == k
  {
    NoneInBoth(routes[0].targets, RouteTargets(routes[1..]));
    if j > 0 {
      RouteOfTarget(routes[1..], t, j - 1, k - 1);
    } else if k > 0 {
      assert routes[1..][k - 1] == routes[k];
      RouteTargetsMember(routes[1..], t);
    }
  }

  lemma NoneInBoth(a: seq<TaskId>, b: seq<TaskId>)
    requires NoDuplicates(a + b)
    ensures NoDuplicates(b) && forall x :: x in a ==> x !in b
  {
    forall j, k | 0 <= j < |a| && 0 <= k < |b|
      ensures a[j] != b[k]
    {
      assert (a + b)[j] == a[j] && (a + b)[|a| + k] == b[k];
    }
    assert forall k :: 0 <= k < |b| ==> (a + b)[|a| + k] == b[k];
  }

  predicate Owns(task: Task, t: TaskId) {
    t in OwnedTargets(task)
  }

  ghost function ControlOwner(tasks: Tasks, t: TaskId): (owner: Option<TaskId>)
    ensures owner.Some? ==> owner.value in tasks && Owns(tasks[owner.value], t)
    ensures owner.None? ==> forall c :: c in tasks ==> !Owns(tasks[c], t)
  {
    if c :| c in tasks && Owns(tasks[c], t) then Some(c) else None
  }

  // A control edge from c to t is well formed.
  ghost predicate TargetOk(tasks: Tasks, c: TaskId, t: TaskId)
    requires c in tasks
  {
    t in tasks &&
    (t in OwnedTargets(tasks[c]) ==> c in DepTasks(tasks[t])) &&
    (t in ContinueTargets(tasks[c]) ==> IsAncestor(tasks, t, c))
  }

  ghost predicate ControllerOk(tasks: Tasks, c: TaskId)
    requires c in tasks
  {
    NoDuplicates(ControlTargets(tasks[c])) &&
    forall t :: t in ControlTargets(tasks[c]) ==> TargetOk(tasks, c, t)
  }

  ghost predicate NamesBoth(tasks: Tasks, c: TaskId, c': TaskId, t: TaskId) {
    c in tasks && c' in tasks && t in ControlTargets(tasks[c]) && t in ControlTargets(tasks[c'])
  }

  // No task is named by two control edges, and each edge is well formed.
  ghost predicate RoutesOk(tasks: Tasks) {
    (forall c :: c in tasks ==> ControllerOk(tasks, c)) &&
    forall c, c', t {:trigger NamesBoth(tasks, c, c', t)} :: NamesBoth(tasks, c, c', t) ==> c == c'
  }

  lemma OwnedAreTargets(task: Task, t: TaskId)
    ensures t in OwnedTargets(task) ==> t in ControlTargets(task)
    ensures t in ContinueTargets(task) ==> t in ControlTargets(task)
  {
  }

  // On valid control edges the owner does not depend on which controller is looked at first.
  lemma OwnerUnique(tasks: Tasks, c: TaskId, t: TaskId)
    requires RoutesOk(tasks) && c in tasks && Owns(tasks[c], t)
    ensures ControlOwner(tasks, t) == Some(c)
  {
    var owner := ControlOwner(tasks, t).value;
    OwnedAreTargets(tasks[c], t);
    OwnedAreTargets(tasks[owner], t);
    assert NamesBoth(tasks, c, owner, t);
  }

  lemma OwnerIsDependency(tasks: Tasks, t: TaskId)
    requires RoutesOk(tasks) && t in tasks && ControlOwner(tasks, t).Some?
    ensures ControlOwner(tasks, t).value in DepTasks(tasks[t])
  {
    var owner := ControlOwner(tasks, t).value;
    OwnedAreTargets(tasks[owner], t);
    assert TargetOk(tasks, owner, t);
  }

  lemma ContinueNotOwned(task: Task, t: TaskId)
    requires NoDuplicates(ControlTargets(task)) && t in ContinueTargets(task)
    ensures !Owns(task, t)
  {
    var continues, stops := task.control.value.continueTargets, task.control.value.stopTargets;
    var all := stops + continues;
    forall j, k | 0 <= j < |stops| && 0 <= k < |continues|
      ensures stops[j] != continues[k]
    {
      assert all[j] == stops[j] && all[|stops| + k] == continues[k];
    }
  }

  // A continue target is named by no other control edge, so no controller owns it.
  lemma SeedUncontrolled(tasks: Tasks, c: TaskId, t: TaskId)
    requires RoutesOk(tasks) && c in tasks && t in ContinueTargets(tasks[c])
    ensures ControlOwner(tasks, t).None?
  {
    assert ControllerOk(tasks, c);
    ContinueNotOwned(tasks[c], t);
    OwnedAreTargets(tasks[c], t);
    if ControlOwner(tasks, t).Some? {
      var owner := ControlOwner(tasks, t).value;
      OwnedAreTargets(tasks[owner], t);
      assert NamesBoth(tasks, owner, c, t);
    }
  }

  // ---------- valid task sets ----------

  ghost predicate ValidTasks(tasks: Tasks) {
    DepsExist(tasks) && RoutesOk(tasks) && Acyclic(DependsMap(tasks))
  }

  lemma NotOwnAncestor(tasks: Tasks, t: TaskId)
    requires ValidTasks(tasks)
    ensures !IsAncestor(tasks, t, t)
  {
    AcyclicIrreflexive(DependsMap(tasks), t);
  }

  // ---------- selecting part of a pool ----------

  // A task needs its dependencies and every task its control may activate.
  function NeedsMap(tasks: Tasks): Edges {
    map t | t in tasks :: DepTasks(tasks[t]) + Elements(ControlTargets(tasks[t]))
  }

  ghost predicate Needed(tasks: Tasks, roots: set<TaskId>, t: TaskId) {
    t in roots || exists r :: r in roots && Reaches(NeedsMap(tasks), r, t)
  }

  // The part of a pool on a set of tasks that contains all they need.
  ghost predicate IsSelection(part: Tasks, pool: Tasks) {
    part.Keys <= pool.Keys &&
    (forall t :: t in part ==> part[t] == pool[t]) &&
    ClosedUnder(NeedsMap(pool), part.Keys)
  }

  // With a task a selection has what the task depends on and every task its control names.
  lemma SelectionHasNeeds(part: Tasks, pool: Tasks, t: TaskId)
    requires IsSelection(part, pool) && t in part
    ensures forall dep :: dep in pool[t].dependsOn ==> dep.task in part
    ensures forall c :: c in ControlTargets(pool[t]) ==> c in part
  {
    assert NeedsMap(pool)[t] <= part.Keys;
    forall dep | dep in pool[t].dependsOn
      ensures dep.task in part
    {
      var k :| 0 <= k < |pool[t].dependsOn| && pool[t].dependsOn[k] == dep;
      assert dep.task in DepTasks(pool[t]);
    }
  }

  lemma SelectionKeepsDependencies(part: Tasks, pool: Tasks)
    requires IsSelection(part, pool)
    ensures DepsExist(part)
    ensures IsPart(DependsMap(part), DependsMap(pool))
  {
    forall t | t in part
      ensures DepTasks(part[t]) <= part.Keys
    {
      assert DepTasks(pool[t]) <= NeedsMap(pool)[t];
    }
    forall t | t in DependsMap(part)
      ensures t in DependsMap(pool) && DependsMap(part)[t] == DependsMap(pool)[t]
    {
      assert DepTasks(part[t]) * part.Keys == DepTasks(pool[t]) * pool.Keys;
    }
  }

  // A selected task has the same ancestors in the frozen run as in the pool.
  lemma SelectionKeepsAncestors(part: Tasks, pool: Tasks, t: TaskId)
    requires IsSelection(part, pool) && t in part
    ensures Ancestors(part, t) == Ancestors(pool, t)
  {
    SelectionKeepsDependencies(part, pool);
    forall a
      ensures IsAncestor(part, a, t) <==> IsAncestor(pool, a, t)
    {
      ReachesInPart(DependsMap(part), DependsMap(pool), t, a);
    }
    forall a | IsAncestor(part, a, t)
      ensures a in part
    {
      ReachesStaysIn(DependsMap(part), part.Keys, t, a);
    }
  }

  // A selected task has the same control owner in the frozen run as in the pool.
  lemma SelectionKeepsOwner(part: Tasks, pool: Tasks, t: TaskId)
    requires IsSelection(part, pool) && t in part && RoutesOk(pool)
    ensures RoutesOk(part)
    ensures ControlOwner(part, t) == ControlOwner(pool, t)
  {
    SelectionKeepsRoutes(part, pool);
    if ControlOwner(pool, t).Some? {
      var owner := ControlOwner(pool, t).value;
      OwnerIsDependency(pool, t);
      assert owner in NeedsMap(pool)[t];
      OwnerUnique(part, owner, t);
    }
  }

  lemma SelectionKeepsRoutes(part: Tasks, pool: Tasks)
    requires IsSelection(part, pool) && RoutesOk(pool)
    ensures RoutesOk(part)
  {
    forall c, t | c in part && t in ControlTargets(part[c])
      ensures TargetOk(part, c, t)
    {
      assert TargetOk(pool, c, t);
      assert t in NeedsMap(pool)[c];
      SelectionKeepsDependencies(part, pool);
      ReachesInPart(DependsMap(part), DependsMap(pool), c, t);
    }
    forall c, c', t | NamesBoth(part, c, c', t)
      ensures c == c'
    {
      assert NamesBoth(pool, c, c', t);
    }
  }

  // A selection of a valid pool is itself a valid set of tasks.
  lemma SelectionValid(part: Tasks, pool: Tasks)
    requires IsSelection(part, pool) && ValidTasks(pool)
    ensures ValidTasks(part)
  {
    SelectionKeepsDependencies(part, pool);
    SelectionKeepsRoutes(part, pool);
    AcyclicInPart(DependsMap(part), DependsMap(pool));
  }
}
