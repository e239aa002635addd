// The visits of sync to a fresh iteration, rehearsed on the tasks alone: what they bind, and whether too early.
module Rehearsal {
  import opened Domain
  import opened Closure
  import opened TaskGraph
  import opened Iterations
  import opened TaskOrder

  // ---------- visits of tasks ----------

  // With the tasks of present there, a visit finds something for every dependency of t, and a hold for t.
  ghost predicate Fits(tasks: Tasks, seeds: seq<TaskId>, present: set<TaskId>, t: TaskId) {
    t in tasks && ControlOwner(tasks, t).None? &&
    (forall d :: d in DepTasks(tasks[t]) ==> d in present || LeadsToSeed(tasks, seeds, d)) &&
    (t in seeds || exists d :: d in DepTasks(tasks[t]) && d in present)
  }

  // Something that t depends on is still to be made anew.
  ghost predicate Misses(tasks: Tasks, seeds: seq<TaskId>, present: set<TaskId>, t: TaskId) {
    t in tasks && exists d :: d in DepTasks(tasks[t]) && Descends(tasks, seeds, d) && d !in present
  }

  ghost predicate KeptApart(tasks: Tasks, seeds: seq<TaskId>, present: set<TaskId>, d: TaskId, e: TaskId) {
    d !in present && e in present ==> !Share(tasks, seeds, d, e)
  }

  // A visit would bind t too early.
  ghost predicate IsTooEarly(tasks: Tasks, seeds: seq<TaskId>, present: set<TaskId>, t: TaskId) {
    Fits(tasks, seeds, present, t) && Misses(tasks, seeds, present, t) &&
    forall d, e {:trigger KeptApart(tasks, seeds, present, d, e)} ::
      d in DepTasks(tasks[t]) && e in DepTasks(tasks[t]) ==> KeptApart(tasks, seeds, present, d, e)
  }

  // What is present after a visit of t that does not bind it too early.
  ghost function AfterVisit(tasks: Tasks, seeds: seq<TaskId>, present: set<TaskId>, t: TaskId): set<TaskId> {
    if Fits(tasks, seeds, present, t) && !Misses(tasks, seeds, present, t) then present + {t} else present
  }

  ghost function AfterVisits(tasks: Tasks, seeds: seq<TaskId>, visits: seq<TaskId>): set<TaskId> {
    if visits == [] then {} else
      var n := |visits| - 1;
      AfterVisit(tasks, seeds, AfterVisits(tasks, seeds, visits[..n]), visits[n])
  }

  // One of these visits, to an iteration that is empty at first, binds its task too early.
  ghost predicate OneTooEarly(tasks: Tasks, seeds: seq<TaskId>, visits: seq<TaskId>) {
    visits != [] &&
    var n := |visits| - 1;
    OneTooEarly(tasks, seeds, visits[..n]) ||
    IsTooEarly(tasks, seeds, AfterVisits(tasks, seeds, visits[..n]), visits[n])
  }

  ghost predicate IsOrder(tasks: Tasks, order: seq<TaskId>) {
    Sorted(order) && Elements(order) == tasks.Keys
  }

  ghost function Passes(order: seq<TaskId>, n: nat): seq<TaskId> {
    if n == 0 then [] else Passes(order, n - 1) + order
  }

  // However many passes sync makes over a fresh iteration with these seeds, none binds a task too early.
  ghost predicate OrderSuits(tasks: Tasks, seeds: seq<TaskId>) {
    forall order, n: nat {:trigger Passes(order, n)} ::
      IsOrder(tasks, order) ==> !OneTooEarly(tasks, seeds, Passes(order, n))
  }

  lemma {:induction false} TooEarlyStays(tasks: Tasks, seeds: seq<TaskId>, visits: seq<TaskId>, more: seq<TaskId>)
    requires OneTooEarly(tasks, seeds, visits)
    ensures OneTooEarly(tasks, seeds, visits + more)
    decreases |more|
  {
    if more == [] {
      assert visits + more == visits;
    } else {
      var n := |more| - 1;
      TooEarlyStays(tasks, seeds, visits, more[..n]);
      assert (visits + more)[..|visits + more| - 1] == visits + more[..n];
    }
  }

  lemma {:induction false} PassesGrow(tasks: Tasks, seeds: seq<TaskId>, order: seq<TaskId>, n: nat, m: nat)
    requires n <= m && OneTooEarly(tasks, seeds, Passes(order, n))
    ensures OneTooEarly(tasks, seeds, Passes(order, m))
    decreases m
  {
    if n < m {
      PassesGrow(tasks, seeds, order, n, m - 1);
      TooEarlyStays(tasks, seeds, Passes(order, m - 1), order);
    }
  }

  // ---------- loops that the order suits ----------

  // The state of the rehearsal after n passes and the first k visits of the next.
  ghost predicate SuitedSoFar(tasks: Tasks, seeds: seq<TaskId>, order: seq<TaskId>, n: nat, k: nat)
    requires k <= |order|
  {
    var visits := Passes(order, n) + order[..k];
    !OneTooEarly(tasks, seeds, visits) &&
    forall u :: u in tasks && Between(tasks, seeds, u) && (n > 0 || u in order[..k]) ==>
      u in AfterVisits(tasks, seeds, visits)
  }

  lemma {:induction false} SuitedVisits(tasks: Tasks, c: TaskId, order: seq<TaskId>, n: nat, k: nat)
    requires DepsExist(tasks) && SeedsOrdered(tasks) && c in tasks && IsOrder(tasks, order) && k <= |order|
    ensures SuitedSoFar(tasks, ContinueTargets(tasks[c]), order, n, k)
    decreases n, k
  {
    hide SeedsOrdered, Between, Sorted, IsTooEarly, AfterVisit;
    var seeds := ContinueTargets(tasks[c]);
    if k > 0 {
      SuitedVisits(tasks, c, order, n, k - 1);
      var before, t := Passes(order, n) + order[..k - 1], order[k - 1];
      assert Passes(order, n) + order[..k] == before + [t];
      assert (before + [t])[..|before|] == before && order[..k] == order[..k - 1] + [t];
      SuitedVisit(tasks, c, order, n, k - 1);
    } else if n > 0 {
      SuitedVisits(tasks, c, order, n - 1, |order|);
      assert order[..|order|] == order && Passes(order, n) + order[..0] == Passes(order, n - 1) + order;
      assert forall u :: u in tasks ==> u in order;
    } else {
      assert Passes(order, n) + order[..k] == [];
    }
  }

  lemma SuitedVisit(tasks: Tasks, c: TaskId, order: seq<TaskId>, n: nat, k: nat)
    requires DepsExist(tasks) && SeedsOrdered(tasks) && c in tasks && IsOrder(tasks, order) && k < |order|
    requires SuitedSoFar(tasks, ContinueTargets(tasks[c]), order, n, k)
    ensures
      var seeds := ContinueTargets(tasks[c]);
      var present := AfterVisits(tasks, seeds, Passes(order, n) + order[..k]);
      !IsTooEarly(tasks, seeds, present, order[k]) && present <= AfterVisit(tasks, seeds, present, order[k]) &&
      (Between(tasks, seeds, order[k]) ==> order[k] in AfterVisit(tasks, seeds, present, order[k]))
  {
    hide Descends, LeadsToSeed, Sorted, OneTooEarly, AfterVisits, KeptApart, IsAncestor, BetweenFree;
    var seeds, t := ContinueTargets(tasks[c]), order[k];
    var present := AfterVisits(tasks, seeds, Passes(order, n) + order[..k]);
    forall d | d in DepTasks(tasks[t]) && Between(tasks, seeds, d)
      ensures d in present
    {
      assert DependsOnBetween(tasks, c, d, t);
      VisitedBefore(order, k, d);
    }
    if Between(tasks, seeds, t) {
      forall d | d in DepTasks(tasks[t])
        ensures LeadsToSeed(tasks, seeds, d)
      {
        DependencyIsAncestor(tasks, d, t);
        LeadsOnUp(tasks, seeds, d, t);
      }
      if t !in seeds {
        var e := DescendsThrough(tasks, seeds, t);
      }
      FreeBetween(tasks, c, t);
    }
  }

  lemma FreeBetween(tasks: Tasks, c: TaskId, t: TaskId)
    requires SeedsOrdered(tasks) && c in tasks && t in tasks && Between(tasks, ContinueTargets(tasks[c]), t)
    ensures ControlOwner(tasks, t).None?
  {
    hide Between, ControlOwner;
  }

  // If all between continue targets is visited before what depends on it, the order suits every loop.
  lemma OrderedSuits(tasks: Tasks, c: TaskId)
    requires DepsExist(tasks) && SeedsOrdered(tasks) && c in tasks
    ensures OrderSuits(tasks, ContinueTargets(tasks[c]))
  {
    hide SeedsOrdered, OneTooEarly, IsOrder;
    forall order, n: nat | IsOrder(tasks, order)
      ensures !OneTooEarly(tasks, ContinueTargets(tasks[c]), Passes(order, n))
    {
      SuitedVisits(tasks, c, order, n, 0);
      assert Passes(order, n) + order[..0] == Passes(order, n);
    }
  }

  lemma {:induction false} PresentDescends(tasks: Tasks, seeds: seq<TaskId>, visits: seq<TaskId>)
    requires DepsExist(tasks)
    ensures forall u :: u in AfterVisits(tasks, seeds, visits) ==> u in visits && Descends(tasks, seeds, u)
  {
    hide Descends, IsAncestor, LeadsToSeed, Misses;
    if visits != [] {
      var n := |visits| - 1;
      var present, t := AfterVisits(tasks, seeds, visits[..n]), visits[n];
      PresentDescends(tasks, seeds, visits[..n]);
      assert visits == visits[..n] + [t];
      if Fits(tasks, seeds, present, t) {
        if t !in seeds {
          var d :| d in DepTasks(tasks[t]) && d in present;
          DependencyIsAncestor(tasks, d, t);
          DescendsOn(tasks, seeds, d, t);
        } else {
          SeedDescends(tasks, seeds, t);
        }
      }
    }
  }

  lemma SeedDescends(tasks: Tasks, seeds: seq<TaskId>, t: TaskId)
    requires t in seeds
    ensures Descends(tasks, seeds, t)
  {
  }

  // A continue target that depends on another and is visited before all that is between them is bound early.
  lemma EarlySeedUnsuited(tasks: Tasks, c: TaskId, t: TaskId)
    requires ValidTasks(tasks) && c in tasks && EarlySeed(tasks, ContinueTargets(tasks[c]), t)
    ensures !OrderSuits(tasks, ContinueTargets(tasks[c]))
  {
    hide RoutesOk, Acyclic, OneTooEarly, IsTooEarly, AfterVisits, Sorted, EarlySeed;
    var seeds := ContinueTargets(tasks[c]);
    var order := OrderExists(tasks.Keys);
    EarlyTask(tasks, seeds, t);
    assert t in order;
    var k :| 0 <= k < |order| && order[k] == t;
    EarlySeedBound(tasks, c, t, order, k);
    EarlyVisit(tasks, seeds, order, k);
    TooEarlyStays(tasks, seeds, order[..k + 1], order[k + 1..]);
    assert order[..k + 1] + order[k + 1..] == order && Passes(order, 1) == Passes(order, 0) + order == order;
  }

  lemma EarlyVisit(tasks: Tasks, seeds: seq<TaskId>, order: seq<TaskId>, k: nat)
    requires k < |order| && IsTooEarly(tasks, seeds, AfterVisits(tasks, seeds, order[..k]), order[k])
    ensures OneTooEarly(tasks, seeds, order[..k + 1])
  {
    hide IsTooEarly, AfterVisits;
    assert order[..k + 1][..k] == order[..k];
  }

  lemma EarlySeedBound(tasks: Tasks, c: TaskId, t: TaskId, order: seq<TaskId>, k: nat)
    requires ValidTasks(tasks) && c in tasks && EarlySeed(tasks, ContinueTargets(tasks[c]), t)
    requires IsOrder(tasks, order) && k < |order| && order[k] == t
    ensures IsTooEarly(tasks, ContinueTargets(tasks[c]), AfterVisits(tasks, ContinueTargets(tasks[c]), order[..k]), t)
  {
    hide RoutesOk, Acyclic, Descends, IsAncestor, BetweenFree, Precedes, Sorted, AfterVisits, Reaches;
    var seeds := ContinueTargets(tasks[c]);
    var present := AfterVisits(tasks, seeds, order[..k]);
    SeedUncontrolled(tasks, c, t);
    PresentDescends(tasks, seeds, order[..k]);
    forall d | d in DepTasks(tasks[t])
      ensures d !in present && LeadsToSeed(tasks, seeds, d)
    {
      DependencyIsAncestor(tasks, d, t);
      EarlyNotAfter(tasks, seeds, t, order, k, d);
    }
    var m := EarlyMissing(tasks, seeds, t);
    assert Misses(tasks, seeds, present, t);
  }

  lemma EarlyNotAfter(tasks: Tasks, seeds: seq<TaskId>, t: TaskId, order: seq<TaskId>, k: nat, d: TaskId)
    requires EarlySeed(tasks, seeds, t) && IsOrder(tasks, order) && k < |order| && order[k] == t
    requires d in tasks && IsAncestor(tasks, d, t)
    ensures Descends(tasks, seeds, d) ==> d !in order[..k]
  {
    hide Descends, IsAncestor, BetweenFree, Precedes, Sorted;
    VisitedBefore(order, k, d);
    PrecedesAsymmetric(t, d);
  }

  lemma EarlyMissing(tasks: Tasks, seeds: seq<TaskId>, t: TaskId) returns (m: TaskId)
    requires DepsExist(tasks) && EarlySeed(tasks, seeds, t)
    ensures m in DepTasks(tasks[t]) && Descends(tasks, seeds, m)
  {
    hide BetweenFree, Precedes;
    var a :| a in seeds && IsAncestor(tasks, a, t);
    m := ReachesUnfold(DependsMap(tasks), t, a);
    assert m == a || IsAncestor(tasks, a, m);
  }
}
