// Sync of a fresh iteration does what the rehearsal of its visits says.
module RehearsedSync {
  import opened Domain
  import opened Closure
  import opened TaskGraph
  import opened InstanceGraph
  import opened Iterations
  import opened TaskOrder
  import opened Rehearsal
  import opened ControlEnvelope
  import opened RunState
  import opened Invariants
  import opened RunTheorems
  import opened RunSteps
  import opened ClosedRuns
  import opened SeedOrder
  import opened SyncVisits
  import opened EarlyVisits

  // ---------- the iteration itself ----------

  ghost function PresentIn(st: State, s: ScopeId): set<TaskId> {
    set i | i in st.instances && st.instances[i].binding.scope == s :: st.instances[i].binding.task
  }

  lemma PresentMeans(st: State, s: ScopeId, t: TaskId)
    ensures t in PresentIn(st, s) <==> HasInScope(GraphOf(st.instances), t, s)
  {
    var g := GraphOf(st.instances);
    if t in PresentIn(st, s) {
      var i :| i in st.instances && st.instances[i].binding.scope == s && st.instances[i].binding.task == t;
      assert g[i] == st.instances[i].binding;
    }
    if i :| i in g && g[i].task == t && g[i].scope == s {
      assert g[i] == st.instances[i].binding;
    }
  }

  // The base scope has all that the seeds depend on.
  ghost predicate BaseReady(st: State, seeds: seq<TaskId>) {
    forall d :: d in st.tasks && LeadsToSeed(st.tasks, seeds, d) ==> HasInScope(GraphOf(st.instances), d, BASE)
  }

  // Nothing in s has ended, and the base scope has all that it may need.
  ghost predicate Rehearsed(st: State, s: ScopeId) {
    s in st.scopes && s != BASE && NothingDoneIn(st, s) && BaseReady(st, st.scopes[s].seeds)
  }

  // The guard of a visit is what the rehearsal says.
  lemma GuardRehearsed(st: State, t: TaskId, s: ScopeId)
    requires Inv(st) && Rehearsed(st, s)
    ensures BindsEarly(st, t, s) <==> IsTooEarly(st.tasks, st.scopes[s].seeds, PresentIn(st, s), t)
  {
    hide Inv, Descends, LeadsToSeed, HasInScope, Share, OwnerReady, PresentIn, NothingDoneIn;
    if t in st.tasks {
      var seeds, present, deps := st.scopes[s].seeds, PresentIn(st, s), DepTasks(st.tasks[t]);
      OwnerNotReady(st, t, s);
      TasksClosed(st);
      forall d | d in deps
        ensures Fillable(st, s, d) <==> d in present || LeadsToSeed(st.tasks, seeds, d)
        ensures HasInScope(GraphOf(st.instances), d, s) <==> d in present
        ensures Late(st, s, d) <==> Descends(st.tasks, seeds, d) && d !in present
      {
        PresentMeans(st, s, d);
      }
      forall d, e | d in deps && e in deps
        ensures Apart(st, s, d, e) <==> KeptApart(st.tasks, seeds, present, d, e)
      {
      }
    }
  }

  lemma TasksClosed(st: State)
    requires Inv(st)
    ensures DepsExist(st.tasks)
  {
    hide Inv, RoutesOk, Acyclic;
    InvParts(st);
  }

  lemma UnfinishedSelectsNothing(st: State, y: InstanceId, t: TaskId)
    requires InstancesOk(st) && y in st.instances && st.instances[y].status != Done
    ensures !Selects(st.tasks, GraphOf(st.instances), st.results, y, t)
  {
    hide DoneOk, DependenciesSatisfied;
    assert InstanceOk(st, y);
  }

  // A controller that has not ended has chosen nothing.
  lemma OwnerNotReady(st: State, t: TaskId, s: ScopeId)
    requires Inv(st) && NothingDoneIn(st, s)
    ensures OwnerReady(st, t, s) <==> ControlOwner(st.tasks, t).None?
  {
    hide Inv, GraphOk, ControlOk, StoreOk, InstancesOk, ControlOwner, Selects;
    InvParts(st);
    forall c, y | y in st.instances && st.instances[y].binding.scope == s
      ensures !OwnerChose(st, t, s, c, y)
    {
      UnfinishedSelectsNothing(st, y, t);
    }
  }

  // ---------- one visit, as rehearsed ----------

  // After these visits s is free of early bindings and has what was rehearsed, unless one was too early.
  ghost predicate Follows(st: State, s: ScopeId, visits: seq<TaskId>) {
    s in st.scopes && s != BASE &&
    (AllGood(st, s) <==> !OneTooEarly(st.tasks, st.scopes[s].seeds, visits)) &&
    (AllGood(st, s) ==> PresentIn(st, s) == AfterVisits(st.tasks, st.scopes[s].seeds, visits))
  }

  lemma FreshFollows(st: State, s: ScopeId)
    requires s in st.scopes && s != BASE && EmptyScope(st, s)
    ensures Follows(st, s, [])
  {
    hide Good;
  }

  // What t can be bound to then, and nothing of it taken early.
  lemma FittingBinding(st: State, t: TaskId, s: ScopeId) returns (deps: map<TaskId, InstanceId>)
    requires Inv(st) && AllGood(st, s) && Rehearsed(st, s)
    requires Fits(st.tasks, st.scopes[s].seeds, PresentIn(st, s), t)
    requires !Misses(st.tasks, st.scopes[s].seeds, PresentIn(st, s), t)
    ensures Closed(GraphOf(st.instances))
    ensures IsCandidate(st.tasks, st.scopes, GraphOf(st.instances), st.results, t, s, deps)
  {
    hide Inv, GraphOk, AllGood, Fillable, OwnerReady, Apart, FillsFor, Descends, LeadsToSeed, HasInScope, Coherent,
      PresentIn, NothingDoneIn, Fills, UpstreamOf;
    InvParts(st);
    ClosedRun(st);
    OwnerNotReady(st, t, s);
    FitsFillable(st, t, s);
    forall d | d in DepTasks(st.tasks[t])
      ensures exists x :: FillsFor(st, t, s, d, x)
    {
      FillerExists(st, t, s, d);
    }
    deps := Fillers(st, t, s, DepTasks(st.tasks[t]));
    forall d | d in deps
      ensures Fills(st, s, d, deps[d])
    {
      FillerFills(st, t, s, d, deps[d]);
    }
    NoneLateApart(st, t, s);
    FilledCoherent(st, s, deps);
    FillersFit(st, t, s, deps);
  }

  lemma FitsFillable(st: State, t: TaskId, s: ScopeId)
    requires Inv(st) && Rehearsed(st, s) && Fits(st.tasks, st.scopes[s].seeds, PresentIn(st, s), t)
    ensures forall d :: d in DepTasks(st.tasks[t]) ==> Fillable(st, s, d)
    ensures t in st.scopes[s].seeds || exists d :: d in DepTasks(st.tasks[t]) && HasInScope(GraphOf(st.instances), d, s)
  {
    hide Inv, Descends, LeadsToSeed, HasInScope, PresentIn, NothingDoneIn;
    TasksClosed(st);
    forall d | d in DepTasks(st.tasks[t])
      ensures Fillable(st, s, d) && (d in PresentIn(st, s) <==> HasInScope(GraphOf(st.instances), d, s))
    {
      PresentMeans(st, s, d);
    }
  }

  // If nothing is missing, nothing that is not there is shared.
  lemma NoneLateApart(st: State, t: TaskId, s: ScopeId)
    requires s in st.scopes && t in st.tasks && !Misses(st.tasks, st.scopes[s].seeds, PresentIn(st, s), t)
    ensures forall d, e {:trigger Apart(st, s, d, e)} ::
      d in DepTasks(st.tasks[t]) && e in DepTasks(st.tasks[t]) ==> Apart(st, s, d, e)
  {
    hide Descends, HasInScope, PresentIn, IsAncestor;
    forall d, e | d in DepTasks(st.tasks[t]) && e in DepTasks(st.tasks[t])
      ensures Apart(st, s, d, e)
    {
      PresentMeans(st, s, d);
      SharedDescends(st.tasks, st.scopes[s].seeds, d, e);
    }
  }

  // A valid binding fits, and if something is missing it takes it early.
  lemma CandidateFits(st: State, t: TaskId, s: ScopeId, deps: map<TaskId, InstanceId>)
    requires Inv(st) && AllGood(st, s) && Rehearsed(st, s) && Closed(GraphOf(st.instances))
    requires IsCandidate(st.tasks, st.scopes, GraphOf(st.instances), st.results, t, s, deps)
    ensures Fits(st.tasks, st.scopes[s].seeds, PresentIn(st, s), t)
    ensures Misses(st.tasks, st.scopes[s].seeds, PresentIn(st, s), t) ==> BindsEarly(st, t, s)
  {
    hide Inv, AllGood, IsCandidate, Descends, LeadsToSeed, HasInScope, PresentIn, NothingDoneIn, Coherent, Fills,
      BindsEarly, OwnerReady, BaseReady, Closed, UpstreamOf, TakenEarly;
    CandidateKnown(st, t, s, deps);
    CandidateOwner(st, t, s, deps);
    OwnerNotReady(st, t, s);
    CandidateAnchored(st, t, s, deps);
    forall d
      ensures d in PresentIn(st, s) <==> HasInScope(GraphOf(st.instances), d, s)
    {
      PresentMeans(st, s, d);
    }
    if Misses(st.tasks, st.scopes[s].seeds, PresentIn(st, s), t) {
      var d :| d in DepTasks(st.tasks[t]) && Descends(st.tasks, st.scopes[s].seeds, d) && d !in PresentIn(st, s);
      LateFilled(st, s, d, deps[d]);
      EarlyGuard(st, t, s, deps);
    }
  }

  // A visit that binds nothing too early adds what was rehearsed.
  lemma VisitPresent(before: State, after: State, t: TaskId, s: ScopeId)
    requires Inv(before) && Inv(after) && Rehearsed(before, s) && AllGood(before, s) && AllGood(after, s)
    requires GrowsInstances(before, after) && NewFrom(before, after, t, s) && Filled(before, after, t, s)
    ensures PresentIn(after, s) == AfterVisit(before.tasks, before.scopes[s].seeds, PresentIn(before, s), t)
  {
    hide Inv, AllGood, IsCandidate, BindsEarly, Fits, Misses, KeysOfInstances, NothingDoneIn, BaseReady;
    VisitIff(before, after, t, s);
    var seeds, present := before.scopes[s].seeds, PresentIn(before, s);
    PresentGrew(before, after, t, s);
    if i :| i in after.instances && i !in before.instances {
      assert IsNewFrom(before, t, s, after.instances[i].binding);
      CandidateFits(before, t, s, after.instances[i].binding.deps);
      assert t in PresentIn(after, s);
    }
    if Fits(before.tasks, seeds, present, t) && !Misses(before.tasks, seeds, present, t) {
      var deps := FittingBinding(before, t, s);
      var i := InstanceOfKey(after, t, deps, s);
      assert t in PresentIn(after, s);
    }
  }

  lemma PresentGrew(before: State, after: State, t: TaskId, s: ScopeId)
    requires GrowsInstances(before, after) && NewFrom(before, after, t, s)
    ensures PresentIn(before, s) <= PresentIn(after, s) <= PresentIn(before, s) + {t}
    ensures (forall i :: i in after.instances ==> i in before.instances) ==> PresentIn(after, s) == PresentIn(before, s)
  {
    hide IsCandidate;
    assert forall i :: i in before.instances ==> after.instances[i] == before.instances[i];
    assert forall i :: i in after.instances && i !in before.instances ==>
      IsNewFrom(before, t, s, after.instances[i].binding);
  }

  lemma FollowsVisit(before: State, after: State, t: TaskId, s: ScopeId, visits: seq<TaskId>)
    requires Inv(before) && Inv(after) && Rehearsed(before, s) && Follows(before, s, visits)
    requires GrowsInstances(before, after) && NewFrom(before, after, t, s) && Filled(before, after, t, s)
    ensures Follows(after, s, visits + [t])
  {
    hide Inv, AllGood, Filled, NewFrom, IsTooEarly, AfterVisit, PresentIn, BindsEarly, Rehearsed;
    RehearsedKnown(before, s);
    ScopesSame(before, after);
    assert (visits + [t])[..|visits|] == visits;
    if AllGood(before, s) {
      VisitIff(before, after, t, s);
      GuardRehearsed(before, t, s);
      if AllGood(after, s) {
        VisitPresent(before, after, t, s);
      }
    } else {
      NeverGoodAgain(before, after, s);
    }
  }

  lemma RehearsedKnown(st: State, s: ScopeId)
    requires Rehearsed(st, s)
    ensures s in st.scopes && s != BASE
  {
  }

  lemma NeverGoodAgain(before: State, after: State, s: ScopeId)
    requires Inv(before) && Inv(after) && GrowsInstances(before, after) && !AllGood(before, s)
    ensures !AllGood(after, s)
  {
    hide Inv, Good;
    ClosedRun(before);
    ClosedRun(after);
    GraphGrows(before, after);
    var i :| i in before.instances && before.instances[i].binding.scope == s &&
      !Good(before.tasks, before.scopes, GraphOf(before.instances), i);
    GoodGrows(after.tasks, after.scopes, GraphOf(before.instances), GraphOf(after.instances), i);
    assert after.instances[i] == before.instances[i];
  }

  // ---------- all visits of a call ----------

  // Whatever visits st' stood after, st stands after those and these.
  ghost predicate Carries(st: State, st': State, s: ScopeId, more: seq<TaskId>) {
    forall visits {:trigger Follows(st, s, visits)} :: Follows(st, s, visits) ==> Follows(st', s, visits + more)
  }

  lemma CarriesNothing(st: State, s: ScopeId)
    ensures Carries(st, st, s, [])
  {
    hide Follows;
    forall visits | Follows(st, s, visits)
      ensures Follows(st, s, visits + [])
    {
      assert visits + [] == visits;
    }
  }

  lemma CarriesOn(a: State, b: State, c: State, s: ScopeId, more: seq<TaskId>, yetMore: seq<TaskId>)
    requires Carries(a, b, s, more) && Carries(b, c, s, yetMore)
    ensures Carries(a, c, s, more + yetMore)
  {
    hide Follows;
    forall visits | Follows(a, s, visits)
      ensures Follows(c, s, visits + (more + yetMore))
    {
      assert Follows(b, s, visits + more);
      assert (visits + more) + yetMore == visits + (more + yetMore);
    }
  }

  lemma CarriesVisit(before: State, after: State, t: TaskId, s: ScopeId)
    requires Inv(before) && Inv(after) && Rehearsed(before, s)
    requires GrowsInstances(before, after) && NewFrom(before, after, t, s) && Filled(before, after, t, s)
    ensures Carries(before, after, s, [t])
  {
    hide Inv, Rehearsed, GrowsInstances, NewFrom, Filled, Follows;
    forall visits | Follows(before, s, visits)
      ensures Follows(after, s, visits + [t])
    {
      FollowsVisit(before, after, t, s, visits);
    }
  }

  // Visits in other scopes do not matter.
  lemma CarriesElsewhere(before: State, after: State, s: ScopeId, r: ScopeId)
    requires Inv(before) && Inv(after) && s != r
    requires GrowsInstances(before, after) && NewOnlyAt(before, after, before.tasks.Keys, {r})
    ensures Carries(before, after, s, [])
  {
    hide Inv, Good;
    ScopesSame(before, after);
    forall visits | Follows(before, s, visits)
      ensures Follows(after, s, visits + [])
    {
      assert visits + [] == visits;
      GoodElsewhere(before, after, s, r);
    }
  }

  lemma GoodElsewhere(before: State, after: State, s: ScopeId, r: ScopeId)
    requires Inv(before) && Inv(after) && s != r
    requires GrowsInstances(before, after) && NewOnlyAt(before, after, before.tasks.Keys, {r})
    ensures AllGood(after, s) <==> AllGood(before, s)
    ensures PresentIn(after, s) == PresentIn(before, s)
  {
    hide Inv, Good;
    ClosedRun(before);
    ClosedRun(after);
    GraphGrows(before, after);
    forall i | i in before.instances
      ensures after.instances[i] == before.instances[i]
      ensures Good(after.tasks, after.scopes, GraphOf(after.instances), i) <==>
        Good(before.tasks, before.scopes, GraphOf(before.instances), i)
    {
      GoodGrows(after.tasks, after.scopes, GraphOf(before.instances), GraphOf(after.instances), i);
    }
    assert forall i :: i in after.instances && after.instances[i].binding.scope == s ==> i in before.instances;
  }

  lemma RehearsedGrows(before: State, after: State, s: ScopeId)
    requires GrowsInstances(before, after) && Rehearsed(before, s)
    ensures Rehearsed(after, s)
  {
    hide HasInScope, LeadsToSeed;
    forall d | d in after.tasks && LeadsToSeed(after.tasks, after.scopes[s].seeds, d)
      ensures HasInScope(GraphOf(after.instances), d, BASE)
    {
      PresentInScopeGrows(before, after, d);
    }
    forall i | i in after.instances && after.instances[i].binding.scope == s
      ensures after.instances[i].status != Done
    {
      assert i in before.instances ==> after.instances[i] == before.instances[i];
    }
  }

  lemma PresentInScopeGrows(before: State, after: State, d: TaskId)
    requires GrowsInstances(before, after) && HasInScope(GraphOf(before.instances), d, BASE)
    ensures HasInScope(GraphOf(after.instances), d, BASE)
  {
    PresentGrows(before, after, d, BASE);
  }

  // ---------- one scope, one pass ----------

  ghost predicate ScopeCarried(start: State, st: State, s: ScopeId, visits: seq<TaskId>) {
    Rehearsed(start, s) ==> Carries(start, st, s, visits)
  }

  lemma ScopeCarriedStarts(st: State, s: ScopeId)
    ensures ScopeCarried(st, st, s, [])
  {
    hide Rehearsed, Carries;
    CarriesNothing(st, s);
  }

  lemma ScopeCarriedVisit(start: State, before: State, after: State, t: TaskId, s: ScopeId, visits: seq<TaskId>)
    requires Inv(before) && Inv(after) && GrowsInstances(start, before) && ScopeCarried(start, before, s, visits)
    requires GrowsInstances(before, after) && NewFrom(before, after, t, s) && Filled(before, after, t, s)
    ensures ScopeCarried(start, after, s, visits + [t])
  {
    hide Inv, Rehearsed, Carries, NewFrom, Filled;
    if Rehearsed(start, s) {
      RehearsedGrows(start, before, s);
      CarriesVisit(before, after, t, s);
      CarriesOn(start, before, after, s, visits, [t]);
    }
  }

  // Of the scopes, those visited have had a pass over all tasks.
  ghost predicate PassCarried(start: State, st: State, visited: set<ScopeId>) {
    (forall order, s {:trigger ScopeCarried(start, st, s, order)} ::
      IsOrder(start.tasks, order) && s in visited ==> ScopeCarried(start, st, s, order)) &&
    forall s :: s in start.scopes && s !in visited ==> ScopeCarried(start, st, s, [])
  }

  lemma PassCarriedStarts(st: State)
    ensures PassCarried(st, st, {})
  {
    hide ScopeCarried, IsOrder;
    forall s
      ensures ScopeCarried(st, st, s, [])
    {
      ScopeCarriedStarts(st, s);
    }
  }

  lemma ScopeCarriedElsewhere(start: State, before: State, after: State, s: ScopeId, r: ScopeId, visits: seq<TaskId>)
    requires Inv(before) && Inv(after) && s != r && ScopeCarried(start, before, s, visits)
    requires GrowsInstances(before, after) && NewOnlyAt(before, after, before.tasks.Keys, {r})
    ensures ScopeCarried(start, after, s, visits)
  {
    hide Inv, Rehearsed, Carries, GrowsInstances, NewOnlyAt;
    if Rehearsed(start, s) {
      CarriesElsewhere(before, after, s, r);
      CarriesOn(start, before, after, s, visits, []);
      assert visits + [] == visits;
    }
  }

  // One more scope has had its pass.
  lemma PassCarriedNext(start: State, before: State, after: State, visited: set<ScopeId>, r: ScopeId)
    requires Inv(before) && Inv(after) && PassCarried(start, before, visited) && r in start.scopes && r !in visited
    requires GrowsInstances(start, before)
    requires GrowsInstances(before, after) && NewOnlyAt(before, after, before.tasks.Keys, {r})
    requires forall order {:trigger ScopeCarried(before, after, r, order)} ::
      IsOrder(before.tasks, order) ==> ScopeCarried(before, after, r, order)
    ensures PassCarried(start, after, visited + {r})
  {
    hide Inv, ScopeCarried, IsOrder, NewOnlyAt;
    forall order, s | IsOrder(start.tasks, order) && s in visited + {r}
      ensures ScopeCarried(start, after, s, order)
    {
      if s == r {
        assert ScopeCarried(start, before, r, []);
        assert ScopeCarried(before, after, r, order);
        ScopeCarriedOn(start, before, after, r, order);
      } else {
        assert ScopeCarried(start, before, s, order);
        ScopeCarriedElsewhere(start, before, after, s, r, order);
      }
    }
    forall s | s in start.scopes && s !in visited + {r}
      ensures ScopeCarried(start, after, s, [])
    {
      assert ScopeCarried(start, before, s, []);
      ScopeCarriedElsewhere(start, before, after, s, r, []);
    }
  }

  lemma ScopeCarriedOn(start: State, before: State, after: State, s: ScopeId, order: seq<TaskId>)
    requires GrowsInstances(start, before) && ScopeCarried(start, before, s, [])
    requires ScopeCarried(before, after, s, order)
    ensures ScopeCarried(start, after, s, order)
  {
    hide Rehearsed, Carries, GrowsInstances;
    if Rehearsed(start, s) {
      RehearsedGrows(start, before, s);
      CarriesOn(start, before, after, s, [], order);
      assert [] + order == order;
    }
  }

  // ---------- the passes of one call of sync ----------

  // x, done and asking for another iteration, has all the seeds depend on in the base scope.
  ghost predicate WillRehearse(st: State, x: InstanceId) {
    MayOpenScope(st, x) && st.instances[x].binding.task in st.tasks &&
    BaseReady(st, ContinueTargets(st.tasks[st.instances[x].binding.task]))
  }

  // The iteration that x has opened stands after so many passes.
  ghost predicate StandsAfter(start: State, st: State, x: InstanceId, order: seq<TaskId>, n: nat) {
    exists s :: IsStanding(start, st, x, s, order, n)
  }

  ghost predicate IsStanding(start: State, st: State, x: InstanceId, s: ScopeId, order: seq<TaskId>, n: nat) {
    OpenedBy(st, x, s) && s !in start.scopes && Rehearsed(st, s) && Follows(st, s, Passes(order, n)) &&
    x in start.instances && start.instances[x].binding.task in start.tasks &&
    st.scopes[s].seeds == ContinueTargets(start.tasks[start.instances[x].binding.task])
  }

  // An iteration just opened is empty.
  lemma OpenedStands(start: State, mid: State, x: InstanceId, order: seq<TaskId>)
    requires Inv(start) && Inv(mid) && GrowsScopes(start, mid) && WillRehearse(start, x) && !MayOpenScope(mid, x)
    ensures StandsAfter(start, mid, x, order, 0)
  {
    hide Inv, BaseReady, Continues, Follows;
    var s := ScopeOf(start, mid, x);
    FreshIsEmpty(start, mid, s);
    FreshFollows(mid, s);
    SameBase(start, mid, mid.scopes[s].seeds);
    assert IsStanding(start, mid, x, s, order, 0);
  }

  lemma SameBase(start: State, mid: State, seeds: seq<TaskId>)
    requires GrowsScopes(start, mid) && BaseReady(start, seeds)
    ensures BaseReady(mid, seeds)
  {
  }

  // A pass adds its visits.
  lemma PassStands(start: State, mid: State, after: State, x: InstanceId, order: seq<TaskId>, n: nat)
    requires StandsAfter(start, mid, x, order, n) && GrowsInstances(mid, after) && IsOrder(mid.tasks, order)
    requires PassCarried(mid, after, mid.scopes.Keys)
    ensures StandsAfter(start, after, x, order, n + 1)
  {
    hide Rehearsed, Follows, IsOrder;
    var s :| IsStanding(start, mid, x, s, order, n);
    RehearsedGrows(mid, after, s);
    assert ScopeCarried(mid, after, s, order);
    assert Passes(order, n + 1) == Passes(order, n) + order;
    assert IsStanding(start, after, x, s, order, n + 1);
  }

  // Opening scopes changes nothing for the others.
  lemma StandsOn(start: State, before: State, mid: State, x: InstanceId, order: seq<TaskId>, n: nat)
    requires StandsAfter(start, before, x, order, n) && GrowsScopes(before, mid)
    ensures StandsAfter(start, mid, x, order, n)
  {
    hide OneTooEarly, AfterVisits, Good, HasInScope, LeadsToSeed;
    var s :| IsStanding(start, before, x, s, order, n);
    GoodInScopes(before, mid, s);
    assert IsStanding(start, mid, x, s, order, n);
  }

  lemma GoodInScopes(before: State, mid: State, s: ScopeId)
    requires GrowsScopes(before, mid) && s in before.scopes
    ensures AllGood(mid, s) <==> AllGood(before, s)
    ensures PresentIn(mid, s) == PresentIn(before, s)
  {
    hide Descends, Upstream;
  }

  // ---------- when sync is done ----------

  // In a closed run further visits change nothing.
  lemma ClosedFollows(st: State, s: ScopeId, visits: seq<TaskId>, t: TaskId)
    requires Inv(st) && SyncClosed(st) && Rehearsed(st, s) && Follows(st, s, visits) && t in st.tasks
    ensures Follows(st, s, visits + [t])
  {
    hide Inv, Rehearsed, Follows, IsCandidate, KeysOfInstances, MayOpenScope;
    RehearsedKnown(st, s);
    ClosedRun(st);
    assert TaskSynced(st, t, s);
    GrowsReflexive(st);
    NothingFrom(st, t, s);
    FollowsVisit(st, st, t, s, visits);
  }

  lemma {:induction false} ClosedFollowsAll(st: State, s: ScopeId, visits: seq<TaskId>, more: seq<TaskId>)
    requires Inv(st) && SyncClosed(st) && Rehearsed(st, s) && Follows(st, s, visits)
    requires forall t :: t in more ==> t in st.tasks
    ensures Follows(st, s, visits + more)
    decreases |more|
  {
    hide Inv, SyncClosed, Rehearsed, Follows;
    if more == [] {
      assert visits + more == visits;
    } else {
      ClosedFollows(st, s, visits, more[0]);
      ClosedFollowsAll(st, s, visits + [more[0]], more[1..]);
      assert visits + more == (visits + [more[0]]) + more[1..];
    }
  }

  lemma {:induction false} ClosedPasses(st: State, s: ScopeId, order: seq<TaskId>, n: nat, m: nat)
    requires Inv(st) && SyncClosed(st) && Rehearsed(st, s) && Follows(st, s, Passes(order, n))
    requires IsOrder(st.tasks, order) && n <= m
    ensures Follows(st, s, Passes(order, m))
    decreases m
  {
    hide Inv, SyncClosed, Rehearsed, Follows, Sorted;
    if n < m {
      ClosedPasses(st, s, order, n, m - 1);
      ClosedFollowsAll(st, s, Passes(order, m - 1), order);
    }
  }

  // Then the iteration is free of early bindings exactly if the order of visits suits its seeds.
  lemma GoodIffSuits(st: State, s: ScopeId, order: seq<TaskId>, n: nat)
    requires Inv(st) && SyncClosed(st) && Rehearsed(st, s)
    requires IsOrder(st.tasks, order) && Follows(st, s, Passes(order, n))
    ensures AllGood(st, s) <==> OrderSuits(st.tasks, st.scopes[s].seeds)
  {
    hide Inv, SyncClosed, Rehearsed, OneTooEarly, AllGood, PresentIn, AfterVisits;
    RehearsedKnown(st, s);
    if AllGood(st, s) {
      forall other, m: nat | IsOrder(st.tasks, other)
        ensures !OneTooEarly(st.tasks, st.scopes[s].seeds, Passes(other, m))
      {
        SortedUnique(order, other);
        ClosedPasses(st, s, order, n, n + m);
        if OneTooEarly(st.tasks, st.scopes[s].seeds, Passes(order, m)) {
          PassesGrow(st.tasks, st.scopes[s].seeds, order, m, n + m);
        }
      }
    }
  }

  // The iteration that x has opened has two instances of some task exactly if the order does not suit it.
  ghost predicate Decided(st: State, x: InstanceId) {
    exists s :: OpenedBy(st, x, s) && IsDecided(st, s)
  }

  ghost predicate IsDecided(st: State, s: ScopeId) {
    s in st.scopes &&
    (AllGood(st, s) <==> OrderSuits(st.tasks, st.scopes[s].seeds)) &&
    (BetweenFree(st.tasks, st.scopes[s].seeds) ==>
      ((exists i, j :: DoubledBy(st, s, i, j)) <==> !OrderSuits(st.tasks, st.scopes[s].seeds)))
  }

  lemma StandingDecided(start: State, st: State, x: InstanceId, order: seq<TaskId>, n: nat)
    requires Inv(st) && Reachable(st) && SyncClosed(st) && IsOrder(st.tasks, order)
    requires StandsAfter(start, st, x, order, n)
    ensures Decided(st, x)
  {
    hide Inv, Reachable, SyncClosed, IsOrder, Follows, OrderSuits, DoubledBy, BetweenFree, AllGood, NothingDoneIn,
      BaseReady;
    var s :| IsStanding(start, st, x, s, order, n);
    GoodIffSuits(st, s, order, n);
    if BetweenFree(st.tasks, st.scopes[s].seeds) {
      DoubledIff(st, s);
      GoodIffNoBorrower(st, s);
    }
    assert OpenedBy(st, x, s) && IsDecided(st, s);
  }

  lemma GoodIffNoBorrower(st: State, s: ScopeId)
    requires Inv(st) && s in st.scopes && s != BASE
    ensures AllGood(st, s) <==> !exists i :: Borrows(st, s, i)
  {
    hide Inv, GraphOk, Good, BorrowedBy;
    InvParts(st);
    forall i | i in st.instances && st.instances[i].binding.scope == s
      ensures Borrows(st, s, i) <==> !Good(st.tasks, st.scopes, GraphOf(st.instances), i)
    {
      BorrowsIff(st, s, i);
    }
  }

  // ---------- loops that started in the base scope ----------

  // s is an iteration of a loop whose first controller instance ran in the base scope.
  ghost predicate FromBase(st: State, s: ScopeId)
    decreases s
  {
    s in st.scopes && st.scopes[s].parent.Some? &&
    var p := st.scopes[s].parent.value;
    p == BASE || (p in st.scopes && p < s && st.scopes[p].seeds == st.scopes[s].seeds && FromBase(st, p))
  }

  // The base scope has all that such a loop needs.
  lemma {:induction false} LoopReady(st: State, s: ScopeId)
    requires Inv(st) && s in st.scopes && s != BASE && FromBase(st, s)
    ensures BaseReady(st, st.scopes[s].seeds)
    decreases s
  {
    hide Inv, BaseReady;
    var p := st.scopes[s].parent.value;
    if p == BASE {
      FirstReady(st, s);
    } else {
      LoopReady(st, p);
    }
  }

  lemma FirstReady(st: State, s: ScopeId)
    requires Inv(st) && s in st.scopes && s != BASE && st.scopes[s].parent == Some(BASE)
    ensures BaseReady(st, st.scopes[s].seeds)
  {
    hide Inv, GraphOk, InstancesOk, ControlOk, StoreOk, WellFormed, ScopesOk, ValidTasks;
    InvParts(st);
    var c := SeedsOf(st, s);
    var x := st.scopes[s].creator.value;
    BaseControllerReady(st, x) by {
      IterationParent(st, s);
    }
  }

  lemma IterationParent(st: State, s: ScopeId)
    requires ScopesOk(st.tasks, st.scopes, GraphOf(st.instances)) && s in st.scopes && s != BASE
    ensures
      var creator := st.scopes[s].creator;
      creator.Some? && creator.value in st.instances &&
      st.scopes[s].parent == Some(st.instances[creator.value].binding.scope)
  {
    assert ScopeOk(st.tasks, st.scopes, GraphOf(st.instances), s);
  }

  // A controller that ran in the base scope has had everything its seeds depend on there.
  lemma BaseControllerReady(st: State, x: InstanceId)
    requires Inv(st) && x in st.instances && st.instances[x].binding.scope == BASE
    ensures st.instances[x].binding.task in st.tasks
    ensures BaseReady(st, ContinueTargets(st.tasks[st.instances[x].binding.task]))
  {
    hide Inv, GraphOk, InstancesOk, ControlOk, StoreOk, WellFormed, ScopesOk, IsAncestor, HasInScope, ContinueTargets;
    InvParts(st);
    ScopePresent(st, x);
    var c := st.instances[x].binding.task;
    var seeds := ContinueTargets(st.tasks[c]);
    forall d | d in st.tasks && LeadsToSeed(st.tasks, seeds, d)
      ensures HasInScope(GraphOf(st.instances), d, BASE)
    {
      var b :| b in seeds && IsAncestor(st.tasks, d, b);
      ContinueIsAncestor(st.tasks, c, b);
      AncestorTransitive(st.tasks, d, b, c);
      var y := AncestorInstance(st, x, d);
      InstancePresent(st, y);
    }
  }

  lemma ContinueIsAncestor(tasks: Tasks, c: TaskId, b: TaskId)
    requires ValidTasks(tasks) && c in tasks && b in ContinueTargets(tasks[c])
    ensures IsAncestor(tasks, b, c)
  {
    hide Acyclic, IsAncestor;
    OwnedAreTargets(tasks[c], b);
    assert ControllerOk(tasks, c) && TargetOk(tasks, c, b);
  }

  // So what such a loop opens next is decided by the order alone.
  lemma LoopWillRehearse(st: State, x: InstanceId)
    requires Reachable(st) && MayOpenScope(st, x) && x in st.instances && st.instances[x].binding.task in st.tasks
    requires
      var s := st.instances[x].binding.scope;
      s == BASE || (FromBase(st, s) && st.scopes[s].seeds == ContinueTargets(st.tasks[st.instances[x].binding.task]))
    ensures WillRehearse(st, x)
  {
    hide Reachable, Inv, MayOpenScope, BaseReady;
    ReachableOk(st);
    if st.instances[x].binding.scope == BASE {
      BaseControllerReady(st, x);
    } else {
      LoopReady(st, st.instances[x].binding.scope);
    }
  }

  // Scopes and bindings never change, so it stays decided.
  lemma DecidedStays(st: State, st': State, x: InstanceId)
    requires Decided(st, x) && st'.tasks == st.tasks && st'.scopes == st.scopes
    requires GraphOf(st'.instances) == GraphOf(st.instances)
    ensures Decided(st', x)
  {
    hide OrderSuits, BetweenFree, Good;
    var s :| OpenedBy(st, x, s) && IsDecided(st, s);
    assert st'.instances.Keys == GraphOf(st.instances).Keys == st.instances.Keys;
    assert forall i :: i in st.instances ==> GraphOf(st'.instances)[i] == st'.instances[i].binding;
    assert forall i :: i in st.instances ==> GraphOf(st.instances)[i] == st.instances[i].binding;
    assert AllGood(st', s) <==> AllGood(st, s);
    assert forall i, j :: DoubledBy(st', s, i, j) <==> DoubledBy(st, s, i, j);
    assert OpenedBy(st', x, s) && IsDecided(st', s);
  }
}
