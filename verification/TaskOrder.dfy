// The order in which sync visits tasks: by their identifiers, character by character.
module TaskOrder {
  import opened Domain
  import opened TaskGraph
  import opened Iterations

  // ---------- identifiers ----------

  predicate Precedes(a: TaskId, b: TaskId) {
    if b == "" then false
    else if a == "" then true
    else if a[0] != b[0] then a[0] < b[0]
    else Precedes(a[1..], b[1..])
  }

  // The identifiers agree up to some place, where one ends or has the smaller character.
  ghost predicate DifferAt(a: TaskId, b: TaskId, n: nat) {
    n <= |a| && n < |b| && a[..n] == b[..n] && (n == |a| || a[n] < b[n])
  }

  lemma {:induction false} PrecedesIff(a: TaskId, b: TaskId)
    ensures Precedes(a, b) <==> exists n: nat :: DifferAt(a, b, n)
  {
    if a == "" && b != "" {
      assert DifferAt(a, b, 0);
    } else if a != "" && b != "" && a[0] < b[0] {
      assert DifferAt(a, b, 0);
    } else if a != "" && b != "" && a[0] == b[0] {
      PrecedesIff(a[1..], b[1..]);
      if n: nat :| DifferAt(a[1..], b[1..], n) {
        assert a[..n + 1] == [a[0]] + a[1..][..n] && b[..n + 1] == [b[0]] + b[1..][..n];
        assert DifferAt(a, b, n + 1);
      }
      if n: nat :| DifferAt(a, b, n) {
        assert n > 0;
        assert a[1..][..n - 1] == a[..n][1..] && b[1..][..n - 1] == b[..n][1..];
        assert DifferAt(a[1..], b[1..], n - 1);
      }
    } else if n: nat :| DifferAt(a, b, n) {
      DifferEarly(a, b, n);
    }
  }

  lemma DifferEarly(a: TaskId, b: TaskId, n: nat)
    requires DifferAt(a, b, n)
    ensures b != "" && (a == "" || a[0] <= b[0])
  {
    if n > 0 {
      assert a[0] == a[..n][0] && b[0] == b[..n][0];
    }
  }

  lemma {:induction false} PrecedesTransitive(a: TaskId, b: TaskId, c: TaskId)
    requires Precedes(a, b) && Precedes(b, c)
    ensures Precedes(a, c)
  {
    if a != "" && a[0] == b[0] && b[0] == c[0] {
      PrecedesTransitive(a[1..], b[1..], c[1..]);
    }
  }

  lemma {:induction false} PrecedesIrreflexive(a: TaskId)
    ensures !Precedes(a, a)
  {
    if a != "" {
      PrecedesIrreflexive(a[1..]);
    }
  }

  lemma {:induction false} PrecedesTotal(a: TaskId, b: TaskId)
    ensures Precedes(a, b) || a == b || Precedes(b, a)
  {
    if a != "" && b != "" && a[0] == b[0] {
      PrecedesTotal(a[1..], b[1..]);
      assert a == [a[0]] + a[1..] && b == [b[0]] + b[1..];
    }
  }

  // ---------- sorting ----------

  ghost predicate Sorted(order: seq<TaskId>) {
    forall j, k :: 0 <= j < k < |order| ==> Precedes(order[j], order[k])
  }

  method Insert(order: seq<TaskId>, t: TaskId) returns (r: seq<TaskId>)
    requires Sorted(order) && t !in order
    ensures Sorted(r) && Elements(r) == Elements(order) + {t}
  {
    var k := 0;
    while k < |order| && Precedes(order[k], t)
      invariant k <= |order| && forall j :: 0 <= j < k ==> Precedes(order[j], t)
    {
      k := k + 1;
    }
    forall j | k <= j < |order|
      ensures Precedes(t, order[j])
    {
      PrecedesTotal(t, order[k]);
      if k < j {
        PrecedesTransitive(t, order[k], order[j]);
      }
    }
    r := order[..k] + [t] + order[k..];
    assert Elements(order) == Elements(order[..k]) + Elements(order[k..]) by {
      assert order == order[..k] + order[k..];
    }
  }

  method SortedIds(ids: set<TaskId>) returns (order: seq<TaskId>)
    ensures Sorted(order) && Elements(order) == ids
  {
    order := [];
    var todo := ids;
    while todo != {}
      invariant todo <= ids && Sorted(order) && Elements(order) == ids - todo
    {
      var t :| t in todo;
      todo := todo - {t};
      order := Insert(order, t);
    }
  }

  // There is only one such order...
  lemma {:induction false} SortedUnique(a: seq<TaskId>, b: seq<TaskId>)
    requires Sorted(a) && Sorted(b) && Elements(a) == Elements(b)
    ensures a == b
    decreases |a|
  {
    NoElements(b);
    if a != [] {
      assert a[0] in Elements(b);
      assert b[0] in Elements(a);
      FirstIsLeast(a, b[0]);
      FirstIsLeast(b, a[0]);
      PrecedesAsymmetric(a[0], b[0]);
      TailElements(a);
      TailElements(b);
      SortedUnique(a[1..], b[1..]);
      assert a == [a[0]] + a[1..] && b == [b[0]] + b[1..];
    }
  }

  lemma NoElements(a: seq<TaskId>)
    ensures Elements(a) == {} ==> a == []
  {
    assert a != [] ==> a[0] in Elements(a);
  }

  lemma FirstIsLeast(a: seq<TaskId>, t: TaskId)
    requires Sorted(a) && t in a
    ensures a[0] == t || Precedes(a[0], t)
  {
  }

  lemma TailElements(a: seq<TaskId>)
    requires Sorted(a) && a != []
    ensures Sorted(a[1..]) && Elements(a[1..]) == Elements(a) - {a[0]}
  {
    PrecedesIrreflexive(a[0]);
    assert a == [a[0]] + a[1..];
    forall t | t in a[1..]
      ensures t != a[0]
    {
      var k :| 0 <= k < |a[1..]| && a[1..][k] == t;
      assert Precedes(a[0], a[k + 1]);
    }
  }

  // ...and there is one.
  lemma {:induction false} OrderExists(ids: set<TaskId>) returns (order: seq<TaskId>)
    ensures Sorted(order) && Elements(order) == ids
  {
    if ids == {} {
      order := [];
    } else {
      var t :| t in ids;
      var rest := OrderExists(ids - {t});
      var k := Place(rest, t);
      order := rest[..k] + [t] + rest[k..];
      assert rest == rest[..k] + rest[k..];
      forall u
        ensures u in order <==> u in rest || u == t
      {
        assert u in rest <==> u in rest[..k] || u in rest[k..];
      }
    }
  }

  // Where t belongs.
  lemma {:induction false} Place(order: seq<TaskId>, t: TaskId) returns (k: nat)
    requires Sorted(order) && t !in order
    ensures k <= |order|
    ensures forall j :: 0 <= j < k ==> Precedes(order[j], t)
    ensures forall j :: k <= j < |order| ==> Precedes(t, order[j])
  {
    if order == [] {
      k := 0;
    } else {
      PrecedesTotal(t, order[0]);
      if Precedes(t, order[0]) {
        k := 0;
        forall j | 0 <= j < |order|
          ensures Precedes(t, order[j])
        {
          if j > 0 {
            PrecedesTransitive(t, order[0], order[j]);
          }
        }
      } else {
        var rest := Place(order[1..], t);
        k := rest + 1;
        assert forall j :: 0 < j < |order| ==> order[j] == order[1..][j - 1];
      }
    }
  }

  // What has been visited before position k comes before all that is visited from k on.
  lemma VisitedBefore(order: seq<TaskId>, k: nat, u: TaskId)
    requires Sorted(order) && k < |order| && u in order
    ensures u in order[..k] <==> Precedes(u, order[k])
  {
    var j :| 0 <= j < |order| && order[j] == u;
    PrecedesIrreflexive(u);
    PrecedesAsymmetric(u, order[k]);
    if j < k {
      assert order[..k][j] == u;
    } else {
      assert forall m :: 0 <= m < k ==> Precedes(order[m], order[j]);
    }
  }

  lemma PrecedesAsymmetric(a: TaskId, b: TaskId)
    ensures Precedes(a, b) ==> !Precedes(b, a)
  {
    if Precedes(a, b) {
      PrecedesIrreflexive(a);
      if Precedes(b, a) {
        PrecedesTransitive(a, b, a);
      }
    }
  }

  // ---------- orders that suit the loops ----------

  ghost predicate DependsOnBetween(tasks: Tasks, c: TaskId, d: TaskId, t: TaskId) {
    c in tasks && Between(tasks, ContinueTargets(tasks[c]), d) && t in tasks && d in DepTasks(tasks[t])
  }

  // No task between these seeds hangs on a controller's choice.
  ghost predicate BetweenFree(tasks: Tasks, seeds: seq<TaskId>) {
    forall d :: d in tasks && Between(tasks, seeds, d) ==> ControlOwner(tasks, d).None?
  }

  // Every task between the continue targets of a controller hangs on no controller's choice and is
  // visited before the tasks that depend on it.
  ghost predicate SeedsOrdered(tasks: Tasks) {
    (forall c :: c in tasks ==> BetweenFree(tasks, ContinueTargets(tasks[c]))) &&
    forall c, d, t {:trigger DependsOnBetween(tasks, c, d, t)} :: DependsOnBetween(tasks, c, d, t) ==> Precedes(d, t)
  }

  lemma AntichainOrdered(tasks: Tasks)
    requires AntichainSeeds(tasks)
    ensures SeedsOrdered(tasks)
  {
    hide Between, IsAntichain;
    forall c, d | c in tasks
      ensures !Between(tasks, ContinueTargets(tasks[c]), d)
    {
      NoneBetween(tasks, ContinueTargets(tasks[c]), d);
    }
  }

  // The seed t depends on another seed, directly or not, and is visited before all tasks between them.
  ghost predicate EarlySeed(tasks: Tasks, seeds: seq<TaskId>, t: TaskId) {
    t in tasks && t in seeds && BetweenFree(tasks, seeds) && (exists a :: a in seeds && IsAncestor(tasks, a, t)) &&
    forall d :: IsAncestor(tasks, d, t) && Descends(tasks, seeds, d) ==> Precedes(t, d)
  }

  lemma EarlyTask(tasks: Tasks, seeds: seq<TaskId>, t: TaskId)
    requires EarlySeed(tasks, seeds, t)
    ensures t in tasks && t in seeds && BetweenFree(tasks, seeds)
  {
    hide BetweenFree, IsAncestor, Descends, Precedes;
  }
}
