// A bound on the number of instances: each unfolds to its own tree, and the trees are finite.
module BindingTrees {
  import opened Domain
  import opened Closure
  import opened TaskGraph
  import opened InstanceGraph
  import opened Iterations

  // A task in a scope with a tree for each of its dependencies.
  datatype Tree = Node(task: TaskId, scope: ScopeId, children: seq<Tree>)

  ghost function Trees(tasks: Tasks, rank: map<TaskId, nat>, scopes: set<ScopeId>, t: TaskId): set<Tree>
    requires DepsExist(tasks) && Ranks(DependsMap(tasks), rank) && t in tasks
    decreases rank[t], 1, 0
  {
    set s, c | s in scopes && c in Choices(tasks, rank, scopes, t, 0) :: Node(t, s, c)
  }

  // The trees for the dependencies of t from the k-th on.
  ghost function Choices(tasks: Tasks, rank: map<TaskId, nat>, scopes: set<ScopeId>, t: TaskId, k: nat): set<seq<Tree>>
    requires DepsExist(tasks) && Ranks(DependsMap(tasks), rank) && t in tasks && k <= |tasks[t].dependsOn|
    decreases rank[t], 0, |tasks[t].dependsOn| - k
  {
    if k == |tasks[t].dependsOn| then {[]} else
      var d := tasks[t].dependsOn[k].task;
      assert d in DepTasks(tasks[t]) && d in DependsMap(tasks)[t];
      set c, r | c in Trees(tasks, rank, scopes, d) && r in Choices(tasks, rank, scopes, t, k + 1) :: [c] + r
  }

  ghost function AllTrees(tasks: Tasks, rank: map<TaskId, nat>, scopes: set<ScopeId>): set<Tree>
    requires DepsExist(tasks) && Ranks(DependsMap(tasks), rank)
  {
    set t, x | t in tasks && x in Trees(tasks, rank, scopes, t) :: x
  }

  ghost function TreeOf(tasks: Tasks, g: Graph, i: InstanceId): Tree
    requires Typed(tasks, g) && i in g
    decreases i, 1, 0
  {
    Node(g[i].task, g[i].scope, Children(tasks, g, i, 0))
  }

  ghost function Children(tasks: Tasks, g: Graph, i: InstanceId, k: nat): (r: seq<Tree>)
    requires Typed(tasks, g) && i in g && k <= |tasks[g[i].task].dependsOn|
    ensures |r| == |tasks[g[i].task].dependsOn| - k
    decreases i, 0, |tasks[g[i].task].dependsOn| - k
  {
    if k == |tasks[g[i].task].dependsOn| then [] else
      var d := tasks[g[i].task].dependsOn[k].task;
      assert d in g[i].deps;
      [TreeOf(tasks, g, g[i].deps[d])] + Children(tasks, g, i, k + 1)
  }

  lemma {:induction false} TreeOfInTrees(tasks: Tasks, rank: map<TaskId, nat>, scopes: set<ScopeId>, g: Graph,
                                         i: InstanceId)
    requires DepsExist(tasks) && Ranks(DependsMap(tasks), rank) && Typed(tasks, g) && i in g
    requires forall j :: j in g ==> g[j].scope in scopes
    ensures TreeOf(tasks, g, i) in Trees(tasks, rank, scopes, g[i].task)
    decreases i, 1, 0
  {
    ChildrenInChoices(tasks, rank, scopes, g, i, 0);
  }

  lemma {:induction false} ChildrenInChoices(tasks: Tasks, rank: map<TaskId, nat>, scopes: set<ScopeId>, g: Graph,
                                             i: InstanceId, k: nat)
    requires DepsExist(tasks) && Ranks(DependsMap(tasks), rank) && Typed(tasks, g) && i in g
    requires k <= |tasks[g[i].task].dependsOn|
    requires forall j :: j in g ==> g[j].scope in scopes
    ensures Children(tasks, g, i, k) in Choices(tasks, rank, scopes, g[i].task, k)
    decreases i, 0, |tasks[g[i].task].dependsOn| - k
  {
    if k < |tasks[g[i].task].dependsOn| {
      var d := tasks[g[i].task].dependsOn[k].task;
      assert d in g[i].deps;
      TreeOfInTrees(tasks, rank, scopes, g, g[i].deps[d]);
      ChildrenInChoices(tasks, rank, scopes, g, i, k + 1);
    }
  }

  lemma {:induction false} ChildAt(tasks: Tasks, g: Graph, i: InstanceId, k: nat, n: nat)
    requires Typed(tasks, g) && i in g && k <= n < |tasks[g[i].task].dependsOn|
    ensures tasks[g[i].task].dependsOn[n].task in g[i].deps
    ensures Children(tasks, g, i, k)[n - k] == TreeOf(tasks, g, g[i].deps[tasks[g[i].task].dependsOn[n].task])
    decreases n - k
  {
    assert tasks[g[i].task].dependsOn[n].task in DepTasks(tasks[g[i].task]);
    if k < n {
      ChildAt(tasks, g, i, k + 1, n);
    }
  }

  // Different instances have different trees, because their keys differ.
  lemma {:induction false} TreesDiffer(tasks: Tasks, g: Graph, i: InstanceId, j: InstanceId)
    requires Typed(tasks, g) && KeysUnique(g) && i in g && j in g
    requires TreeOf(tasks, g, i) == TreeOf(tasks, g, j)
    ensures i == j
    decreases i
  {
    var t := g[i].task;
    forall d | d in g[i].deps
      ensures d in g[j].deps && g[i].deps[d] == g[j].deps[d]
    {
      var n :| 0 <= n < |tasks[t].dependsOn| && tasks[t].dependsOn[n].task == d;
      ChildAt(tasks, g, i, 0, n);
      ChildAt(tasks, g, j, 0, n);
      TreesDiffer(tasks, g, g[i].deps[d], g[j].deps[d]);
    }
    assert BindingTyped(tasks, g, g[i]) && BindingTyped(tasks, g, g[j]);
    assert g[i].deps.Keys == g[j].deps.Keys;
    assert SameKey(g[i], g[j]);
  }

  ghost predicate Injective<A(!new), B(!new)>(f: map<A, B>) {
    forall a, a' :: a in f && a' in f && f[a] == f[a'] ==> a == a'
  }

  lemma {:induction false} InjectiveInto<A(!new), B(!new)>(f: map<A, B>, S: set<B>)
    requires Injective(f) && forall a :: a in f ==> f[a] in S
    ensures |f| <= |S|
    decreases |f|
  {
    if f != map[] {
      var a :| a in f;
      InjectiveInto(f - {a}, S - {f[a]});
    }
  }

  // A run of given scopes never has more instances than there are trees.
  lemma InstancesBounded(tasks: Tasks, rank: map<TaskId, nat>, scopes: set<ScopeId>, g: Graph)
    requires DepsExist(tasks) && Ranks(DependsMap(tasks), rank) && Typed(tasks, g) && KeysUnique(g)
    requires forall j :: j in g ==> g[j].scope in scopes
    ensures |g| <= |AllTrees(tasks, rank, scopes)|
  {
    var f := map i | i in g :: TreeOf(tasks, g, i);
    forall i, j | i in f && j in f && f[i] == f[j]
      ensures i == j
    {
      TreesDiffer(tasks, g, i, j);
    }
    forall i | i in f
      ensures f[i] in AllTrees(tasks, rank, scopes)
    {
      TreeOfInTrees(tasks, rank, scopes, g, i);
      assert BindingTyped(tasks, g, g[i]);
    }
    assert f.Keys == g.Keys;
    InjectiveInto(f, AllTrees(tasks, rank, scopes));
  }

  ghost function Pairs(ts: set<TaskId>, ss: set<ScopeId>): set<(TaskId, ScopeId)> {
    set t, s | t in ts && s in ss :: (t, s)
  }

  lemma {:induction false} PairsCount(ts: set<TaskId>, ss: set<ScopeId>)
    ensures |Pairs(ts, ss)| == |ts| * |ss|
    decreases |ts|
  {
    if ts == {} {
      assert Pairs(ts, ss) == {};
    } else {
      var u :| u in ts;
      PairsCount(ts - {u}, ss);
      RowCount(u, ss);
      var rest, row := Pairs(ts - {u}, ss), Pairs({u}, ss);
      assert Pairs(ts, ss) == rest + row && rest !! row;
      assert |ts| * |ss| == (|ts| - 1) * |ss| + |ss|;
    }
  }

  lemma {:induction false} RowCount(u: TaskId, ss: set<ScopeId>)
    ensures |Pairs({u}, ss)| == |ss|
    decreases |ss|
  {
    if ss == {} {
      assert Pairs({u}, ss) == {};
    } else {
      var v :| v in ss;
      RowCount(u, ss - {v});
      var rest := Pairs({u}, ss - {v});
      assert Pairs({u}, ss) == rest + {(u, v)} && (u, v) !in rest;
    }
  }

  // In a clean graph, at most one instance for each task and scope.
  lemma AtMostTasksTimesScopes(tasks: Tasks, scopes: map<ScopeId, InputScope>, g: Graph)
    requires DepsExist(tasks) && Typed(tasks, g) && AllPlaced(tasks, scopes, g) && KeysUnique(g)
    requires Clean(tasks, scopes, g)
    ensures |g| <= |tasks| * |scopes|
  {
    hide KeysUnique, Clean, DepsExist;
    var f := map i | i in g :: (g[i].task, g[i].scope);
    forall i, j | i in f && j in f && f[i] == f[j]
      ensures i == j
    {
      CleanUnique(tasks, scopes, g, i, j);
    }
    var pairs := Pairs(tasks.Keys, scopes.Keys);
    forall i | i in f
      ensures f[i] in pairs
    {
      assert BindingTyped(tasks, g, g[i]) && BindingPlaced(tasks, scopes, g, g[i]);
    }
    assert f.Keys == g.Keys;
    InjectiveInto(f, pairs);
    PairsCount(tasks.Keys, scopes.Keys);
  }

  // With the base scope alone, at most one instance for each task.
  lemma AtMostTasks(tasks: Tasks, scopes: map<ScopeId, InputScope>, g: Graph)
    requires Typed(tasks, g) && AllPlaced(tasks, scopes, g) && KeysUnique(g) && scopes.Keys == {BASE}
    ensures |g| <= |tasks|
  {
    hide KeysUnique;
    var f := map i | i in g :: g[i].task;
    forall i | i in f
      ensures f[i] in tasks.Keys && g[i].scope == BASE
    {
      assert BindingTyped(tasks, g, g[i]) && BindingPlaced(tasks, scopes, g, g[i]);
    }
    forall i, j | i in f && j in f && f[i] == f[j]
      ensures i == j
    {
      AtMostOneInBase(tasks, scopes, g, i, j);
    }
    assert f.Keys == g.Keys;
    InjectiveInto(f, tasks.Keys);
  }
}
