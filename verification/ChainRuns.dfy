// Runs of pools in which each task depends on the one before it, driven through the scheduler.
module ChainRuns {
  import opened Domain
  import opened Closure
  import opened TaskGraph
  import opened InstanceGraph
  import opened Iterations
  import opened TaskOrder
  import opened ControlEnvelope
  import opened RunState
  import opened Invariants
  import opened Preservation
  import opened RunTheorems
  import opened RunProgress
  import opened RunSteps
  import opened ClosedRuns
  import opened SeedOrder
  import opened SyncVisits
  import opened Rehearsal
  import opened RehearsedSync
  import opened TaskPool
  import opened RunService

  // ---------- pools that are a chain ----------

  // The task waits for other tasks, and nothing else is asked of it.
  predicate IsPlain(task: Task) {
    task.publish == [] && task.requiredDecisions == [] && forall dep :: dep in task.dependsOn ==> dep.kind == Order
  }

  datatype Link = Link(id: TaskId, control: Option<TaskControl>)

  predicate DistinctIds(chain: seq<Link>) {
    forall j, k :: 0 <= j < k < |chain| ==> chain[j].id != chain[k].id
  }

  function LinkTask(chain: seq<Link>, k: nat): Task
    requires k < |chain|
  {
    Task({}, if k == 0 then [] else [Dependency(chain[k - 1].id, Order, [])], chain[k].control, [], false, [])
  }

  function ChainPool(chain: seq<Link>): Tasks
    requires DistinctIds(chain)
  {
    map k | 0 <= k < |chain| :: chain[k].id := LinkTask(chain, k)
  }

  // Loops go back to earlier links and stop at the next one, and no link is named twice.
  ghost predicate LoopsBack(chain: seq<Link>) {
    DistinctIds(chain) &&
    (forall k :: 0 <= k < |chain| ==> LinkOk(chain, k)) &&
    forall j, k, t {:trigger NamesAt(chain, j, t), NamesAt(chain, k, t)} ::
      NamesAt(chain, j, t) && NamesAt(chain, k, t) ==> j == k
  }

  ghost predicate LinkOk(chain: seq<Link>, k: nat)
    requires k < |chain|
  {
    var task := LinkTask(chain, k);
    NoDuplicates(ControlTargets(task)) &&
    (forall t :: t in OwnedTargets(task) ==> k + 1 < |chain| && t == chain[k + 1].id) &&
    forall t :: t in ContinueTargets(task) ==> IdBefore(chain, k, t)
  }

  ghost predicate NamesAt(chain: seq<Link>, k: int, t: TaskId) {
    0 <= k < |chain| && t in ControlTargets(LinkTask(chain, k))
  }

  ghost predicate IdBefore(chain: seq<Link>, k: nat, t: TaskId) {
    exists j :: 0 <= j < k && j < |chain| && chain[j].id == t
  }

  lemma TaskOfLink(chain: seq<Link>, k: nat)
    requires DistinctIds(chain) && k < |chain|
    ensures chain[k].id in ChainPool(chain) && ChainPool(chain)[chain[k].id] == LinkTask(chain, k)
    ensures DepTasks(LinkTask(chain, k)) == if k == 0 then {} else {chain[k - 1].id}
    ensures IsPlain(LinkTask(chain, k))
  {
    if k > 0 {
      assert LinkTask(chain, k).dependsOn[0].task == chain[k - 1].id;
    }
  }

  lemma LinkOf(chain: seq<Link>, t: TaskId) returns (k: nat)
    requires DistinctIds(chain) && t in ChainPool(chain)
    ensures k < |chain| && chain[k].id == t && ChainPool(chain)[t] == LinkTask(chain, k)
  {
    k :| 0 <= k < |chain| && chain[k].id == t;
  }

  lemma ChainDeps(chain: seq<Link>)
    requires DistinctIds(chain)
    ensures DepsExist(ChainPool(chain))
  {
    hide DistinctIds, LinkTask, IsPlain, ChainPool;
    forall t | t in ChainPool(chain)
      ensures DepTasks(ChainPool(chain)[t]) <= ChainPool(chain).Keys
    {
      var k := LinkOf(chain, t);
      TaskOfLink(chain, k);
      if k > 0 {
        TaskOfLink(chain, k - 1);
      }
    }
  }

  // The ancestors of a link are the links before it.
  lemma {:induction false} ChainAncestor(chain: seq<Link>, k: nat, a: TaskId)
    requires DistinctIds(chain) && k < |chain|
    ensures IsAncestor(ChainPool(chain), a, chain[k].id) <==> IdBefore(chain, k, a)
    decreases k
  {
    hide Reaches, DistinctIds, LinkTask, ChainPool, IsPlain;
    var pool := ChainPool(chain);
    TaskOfLink(chain, k);
    if IsAncestor(pool, a, chain[k].id) {
      var m := ReachesUnfold(DependsMap(pool), chain[k].id, a);
      assert m in DepTasks(pool[chain[k].id]);
      ChainAncestor(chain, k - 1, a);
    }
    if IdBefore(chain, k, a) {
      TaskOfLink(chain, k - 1);
      DependencyIsAncestor(pool, chain[k - 1].id, chain[k].id);
      ChainAncestor(chain, k - 1, a);
      if a != chain[k - 1].id {
        AncestorTransitive(pool, a, chain[k - 1].id, chain[k].id);
      }
    }
  }

  lemma ChainAcyclic(chain: seq<Link>)
    requires DistinctIds(chain)
    ensures Acyclic(DependsMap(ChainPool(chain)))
  {
    hide LinkTask, IsPlain, ChainPool;
    var pool := ChainPool(chain);
    var rank := map t | t in pool :: Place(chain, t);
    forall a, b | a in DependsMap(pool) && b in DependsMap(pool)[a]
      ensures b in pool && rank[b] < rank[a]
    {
      var k := LinkOf(chain, a);
      TaskOfLink(chain, k);
      PlaceOfLink(chain, k);
      PlaceOfLink(chain, k - 1);
    }
    assert Ranks(DependsMap(pool), rank);
  }

  // The position of t, or the length of the chain if t is no link.
  function Place(chain: seq<Link>, t: TaskId): nat {
    if chain == [] || chain[|chain| - 1].id == t then |chain| else Place(chain[..|chain| - 1], t)
  }

  lemma {:induction false} PlaceOfLink(chain: seq<Link>, k: nat)
    requires DistinctIds(chain) && k < |chain|
    ensures Place(chain, chain[k].id) == k + 1
  {
    if k < |chain| - 1 {
      assert chain[..|chain| - 1][k] == chain[k];
      PlaceOfLink(chain[..|chain| - 1], k);
    }
  }

  lemma ChainValid(chain: seq<Link>)
    requires LoopsBack(chain)
    ensures ValidTasks(ChainPool(chain))
  {
    hide IsAncestor, DistinctIds, LinkTask, ChainPool, Acyclic, IsPlain;
    ChainDeps(chain);
    ChainAcyclic(chain);
    var pool := ChainPool(chain);
    forall c | c in pool
      ensures ControllerOk(pool, c)
    {
      LinkController(chain, c);
    }
    forall c, c', t | NamesBoth(pool, c, c', t)
      ensures c == c'
    {
      var j := LinkOf(chain, c);
      var k := LinkOf(chain, c');
      assert NamesAt(chain, j, t) && NamesAt(chain, k, t);
    }
  }

  lemma LinkController(chain: seq<Link>, c: TaskId)
    requires LoopsBack(chain) && c in ChainPool(chain)
    ensures ControllerOk(ChainPool(chain), c)
  {
    hide IsAncestor, DistinctIds, LinkTask, ChainPool, IsPlain;
    var k := LinkOf(chain, c);
    assert LinkOk(chain, k);
    forall t | t in ControlTargets(LinkTask(chain, k))
      ensures TargetOk(ChainPool(chain), c, t)
    {
      TargetInChain(chain, k, t);
      ChainAncestor(chain, k, t);
    }
  }

  lemma TargetInChain(chain: seq<Link>, k: nat, t: TaskId)
    requires DistinctIds(chain) && k < |chain| && LinkOk(chain, k) && t in ControlTargets(LinkTask(chain, k))
    ensures t in ChainPool(chain)
    ensures t in OwnedTargets(LinkTask(chain, k)) ==> chain[k].id in DepTasks(ChainPool(chain)[t])
  {
    hide DistinctIds, LinkTask, ChainPool, IsPlain;
    if t in OwnedTargets(LinkTask(chain, k)) {
      TaskOfLink(chain, k + 1);
    } else {
      TargetsSplit(LinkTask(chain, k), t);
      var j: nat :| j < k && j < |chain| && chain[j].id == t;
      TaskOfLink(chain, j);
    }
  }

  lemma TargetsSplit(task: Task, t: TaskId)
    requires t in ControlTargets(task)
    ensures t in OwnedTargets(task) || t in ContinueTargets(task)
  {
  }

  // A link is controlled by the one before it if that one stops at it, and by nobody else.
  lemma ChainOwner(chain: seq<Link>, k: nat)
    requires LoopsBack(chain) && k < |chain|
    ensures ControlOwner(ChainPool(chain), chain[k].id) ==
      if k > 0 && Owns(LinkTask(chain, k - 1), chain[k].id) then Some(chain[k - 1].id) else None
  {
    hide LinkTask, ChainPool, IsPlain;
    var owner := ControlOwner(ChainPool(chain), chain[k].id);
    if owner.Some? {
      var j := LinkOf(chain, owner.value);
      assert LinkOk(chain, j);
    } else if k > 0 {
      TaskOfLink(chain, k - 1);
    }
  }

  // Single seeds are antichains.
  lemma ChainAntichain(chain: seq<Link>)
    requires LoopsBack(chain) && forall k :: 0 <= k < |chain| ==> |ContinueTargets(LinkTask(chain, k))| <= 1
    ensures AntichainSeeds(ChainPool(chain))
  {
    hide IsAncestor, LinkTask, ChainPool, IsPlain, DistinctIds;
    ChainValid(chain);
    hide ValidTasks;
    var pool := ChainPool(chain);
    forall c | c in pool
      ensures IsAntichain(pool, ContinueTargets(pool[c]))
    {
      var k := LinkOf(chain, c);
      forall a | a in ContinueTargets(pool[c])
        ensures !IsAncestor(pool, a, a)
      {
        NotOwnAncestor(pool, a);
      }
    }
  }

  // ---------- runs in which all goes well ----------

  predicate GoesWell(inst: Instance) {
    inst.status == Pending || inst.status == Runnable || inst.status == Done
  }

  // Nothing is in flight, nobody was asked, and nothing has failed.
  ghost predicate Idle(st: State) {
    st.live == map[] && st.interrupts == map[] && forall i :: i in st.instances ==> GoesWell(st.instances[i])
  }

  ghost predicate Settled(st: State) {
    Idle(st) && SyncClosed(st) && forall i :: i in st.instances ==> SweptIn(st, i)
  }

  lemma RefreshedWell(task: Task, instances: map<InstanceId, Instance>, interrupts: map<InterruptId, Interrupt>,
                      i: InstanceId)
    requires i in instances && forall x :: x in instances ==> GoesWell(instances[x])
    ensures GoesWell(Refreshed(task, instances, interrupts, i))
  {
  }

  lemma UpdateStepIdle(st: State, a: Action)
    requires Enabled(st, a) && IsUpdate(a) && Idle(st)
    ensures Idle(Next(st, a))
  {
    hide Refreshed, IsCandidate, MergedActivation, Continues, Closed, OwnsScope;
    if a.Refresh? {
      RefreshedWell(st.tasks[st.instances[a.id].binding.task], st.instances, st.interrupts, a.id);
    }
  }

  lemma {:induction false} UpdatesIdle(st: State, actions: seq<Action>, st': State)
    requires IsRun(st, actions, st') && Idle(st) && forall k :: 0 <= k < |actions| ==> IsUpdate(actions[k])
    ensures Idle(st')
    decreases |actions|
  {
    hide Enabled, Next, Idle;
    if actions != [] {
      UpdateStepIdle(st, actions[0]);
      UpdatesIdle(Next(st, actions[0]), actions[1..], st');
    }
  }

  lemma UpdatedIdle(start: State, history: seq<Action>, st: State, history': seq<Action>, st': State)
    requires RunOk(start, history, st) && RunOk(start, history', st') && Continued(history, history', IsUpdate)
    requires Idle(st)
    ensures Idle(st')
  {
    hide RunOk, IsRun, Idle, Inv;
    var added := Added(history, history');
    assert history' == history + added;
    StretchOfRun(start, history, st, added, st');
    assert forall k :: 0 <= k < |added| ==> added[k] == history'[|history| + k];
    UpdatesIdle(st, added, st');
  }

  // ---------- one attempt that completes ----------

  function KeptPayload(task: Task, i: InstanceId, dir: AttemptDir): Option<Payload> {
    match Materialize(task, i, dir)
    case Keep(payload, _) => Some(payload)
    case _ => None
  }

  const COMPLETED := NodeResult(true, 0, None, None, Some(Completed), None, None, false)

  // From st to st' instance i has become done; nothing else has changed but the log.
  ghost predicate Attempted(st: State, i: InstanceId, dir: AttemptDir, st': State) {
    Known(st, i) && st'.tasks == st.tasks && st'.scopes == st.scopes && st'.instances.Keys == st.instances.Keys &&
    (forall x :: x in st.instances && x != i ==> st'.instances[x] == st.instances[x]) &&
    st'.instances[i].binding == st.instances[i].binding && st'.instances[i].status == Done &&
    st'.results == StoreResult(st.results, i, KeptPayload(st.tasks[st.instances[i].binding.task], i, dir))
  }

  lemma PlainEndsDone(task: Task, i: InstanceId, inst: Instance, stored: Option<Payload>, dir: AttemptDir)
    requires IsPlain(task) && !Materialize(task, i, dir).Refused?
    ensures
      var ending := Finished(task, map[], i, inst, stored, COMPLETED, dir);
      ending.instance.status == Done && ending.instance.binding == inst.binding &&
      ending.result == KeptPayload(task, i, dir)
  {
    hide Materialize;
  }

  lemma AttemptLeaves(st: State, begun: State, mid: State, i: InstanceId, dir: AttemptDir, st': State)
    requires Idle(st) && Known(st, i) && IsPlain(st.tasks[st.instances[i].binding.task])
    requires !Materialize(st.tasks[st.instances[i].binding.task], i, dir).Refused?
    requires Stepped(st, Begin(i), begun) && OnlyApplies(begun, mid) && Stepped(mid, Finish(i, COMPLETED, dir), st')
    ensures Attempted(st, i, dir, st') && Idle(st')
  {
    hide Finished, Materialize, KeptPayload, StoreResult, StoredResult;
    assert mid.interrupts == map[];
    PlainEndsDone(st.tasks[st.instances[i].binding.task], i, mid.instances[i], StoredResult(mid.results, i), dir);
  }

  method Attempt(run: Run, i: InstanceId, dir: AttemptDir)
    requires run.Valid() && Idle(run.Current()) && Known(run.Current(), i) && run.instances[i].status == Runnable
    requires IsPlain(run.tasks[run.instances[i].binding.task])
    requires !Materialize(run.tasks[run.instances[i].binding.task], i, dir).Refused?
    modifies run, run.store
    ensures run.Valid() && Attempted(old(run.Current()), i, dir, run.Current()) && Idle(run.Current())
    ensures old(run.history) <= run.history
  {
    hide RunOk, Stepped, Materialize, Attempted, OnlyApplies;
    ghost var before := run.Current();
    var begun := run.BeginAttempt(i);
    ghost var started := run.Current();
    BeginTouches(before, i, started);
    ghost var mid := run.FinishAttempt(i, COMPLETED, dir);
    AttemptLeaves(before, started, mid, i, dir, run.Current());
  }

  // What is done, by task and scope.
  ghost function DoneAt(st: State): set<(TaskId, ScopeId)> {
    set i | i in st.instances && st.instances[i].status == Done ::
      (st.instances[i].binding.task, st.instances[i].binding.scope)
  }

  // i has become done, with this result, and the run was brought up to date.
  ghost predicate EndedWell(st: State, i: InstanceId, dir: AttemptDir, st': State) {
    Known(st, i) && st'.tasks == st.tasks && i in st'.instances && st'.instances[i].status == Done &&
    st'.instances[i].binding == st.instances[i].binding &&
    StoredResult(st'.results, i) == KeptPayload(st.tasks[st.instances[i].binding.task], i, dir) &&
    DoneAt(st') == DoneAt(st) + {(st.instances[i].binding.task, st.instances[i].binding.scope)}
  }

  lemma AttemptCompletes(st: State, i: InstanceId, dir: AttemptDir, mid: State, st': State)
    requires Attempted(st, i, dir, mid) && Refreshing(mid, st')
    ensures EndedWell(st, i, dir, st')
  {
    hide KeptPayload;
    assert SweptFrom(mid.instances[i], st'.instances[i]);
    forall x | x in st.instances && st.instances[x].status == Done
      ensures x in st'.instances && st'.instances[x].status == Done
      ensures st'.instances[x].binding == st.instances[x].binding
    {
      assert SweptFrom(mid.instances[x], st'.instances[x]);
    }
    forall x | x in st'.instances && st'.instances[x].status == Done
      ensures x in st.instances && st'.instances[x].binding == st.instances[x].binding
      ensures x == i || st.instances[x].status == Done
    {
      DoneBefore(mid, st', x);
    }
  }

  lemma DoneBefore(st: State, st': State, x: InstanceId)
    requires Refreshing(st, st') && x in st'.instances && st'.instances[x].status == Done
    ensures x in st.instances && st'.instances[x].binding == st.instances[x].binding && st.instances[x].status == Done
  {
    assert x !in st.instances ==> SweptFrom(NewInstance(st'.instances[x].binding), st'.instances[x]);
  }

  // Attempts the runnable instance of t in s with this outcome, and brings the run up to date.
  method Complete(run: Run, t: TaskId, s: ScopeId, dir: AttemptDir) returns (i: InstanceId, ghost mid: State)
    requires run.Valid() && Settled(run.Current()) && t in run.tasks && IsPlain(run.tasks[t])
    requires exists x :: MayAttempt(run.Current(), t, s, x)
    requires forall x :: !Materialize(run.tasks[t], x, dir).Refused?
    modifies run, run.store
    ensures run.Valid() && Settled(run.Current()) && old(run.history) <= run.history
    ensures MayAttempt(old(run.Current()), t, s, i) && EndedWell(old(run.Current()), i, dir, run.Current())
    ensures Attempted(old(run.Current()), i, dir, mid)
    ensures forall x :: WillRehearse(mid, x) ==> Decided(run.Current(), x)
  {
    hide RunOk, Idle, SyncClosed, SweptIn, Materialize, Attempted, Refreshing, WillRehearse, Decided, EndedWell;
    ghost var before := run.Current();
    assert exists x :: x in run.instances && MayAttempt(before, t, s, x);
    i :| i in run.instances && run.instances[i].binding.task == t && run.instances[i].binding.scope == s &&
      run.instances[i].status == Runnable;
    Attempt(run, i, dir);
    mid := run.Current();
    ghost var soFar := run.history;
    run.SyncAndRefresh();
    UpdatedIdle(Initial(run.tasks, run.userInputs), soFar, mid, run.history, run.Current());
    AttemptCompletes(before, i, dir, mid, run.Current());
  }

  ghost predicate MayAttempt(st: State, t: TaskId, s: ScopeId, x: InstanceId) {
    x in st.instances && st.instances[x].binding.task == t && st.instances[x].binding.scope == s &&
    st.instances[x].status == Runnable
  }

  // ---------- what may be attempted ----------

  // A swept instance that is not done and whose dependencies are satisfied may be attempted.
  lemma SatisfiedMay(st: State, x: InstanceId)
    requires Settled(st) && Known(st, x)
    requires (st.instances[x].binding.task, st.instances[x].binding.scope) !in DoneAt(st)
    requires DependenciesSatisfied(st.tasks[st.instances[x].binding.task], st.instances, st.instances[x].binding.deps)
    ensures MayAttempt(st, st.instances[x].binding.task, st.instances[x].binding.scope, x)
  {
    hide SyncClosed, DependenciesSatisfied;
    assert SweptIn(st, x) && GoesWell(st.instances[x]);
  }

  // A task without dependencies, in the base scope or in an iteration that starts with it.
  lemma RootMay(st: State, t: TaskId, s: ScopeId)
    requires Reachable(st) && Settled(st) && t in st.tasks && st.tasks[t].dependsOn == [] && (t, s) !in DoneAt(st)
    requires s in st.scopes && (s != BASE ==> t in st.scopes[s].seeds)
    ensures exists x :: MayAttempt(st, t, s, x)
  {
    hide Reachable, Inv, SyncClosed, SweptIn, Idle, IsCandidate;
    ReachableOk(st);
    assert DepTasks(st.tasks[t]) == {};
    if s == BASE {
      AdmittedIsCandidate(st, t, map[]);
      var x := CandidateInstance(st, t, BASE, map[]);
      SatisfiedMay(st, x);
    } else {
      var deps := SeedBinding(st, s, t);
      ClosedRun(st);
      var x := CandidateInstance(st, t, s, deps);
      SatisfiedMay(st, x);
    }
  }

  // A task that depends on the task of y alone, in the scope of y, once y is done and lets it go on.
  ghost predicate MayFollow(st: State, t: TaskId, y: InstanceId) {
    y in st.instances && st.instances[y].status == Done && t in st.tasks &&
    st.tasks[t].dependsOn == [Dependency(st.instances[y].binding.task, Order, [])] &&
    (ControlOwner(st.tasks, t).None? ||
     (ControlOwner(st.tasks, t) == Some(st.instances[y].binding.task) &&
       Selects(st.tasks, GraphOf(st.instances), st.results, y, t))) &&
    (st.instances[y].binding.scope == BASE || AntichainSeeds(st.tasks))
  }

  lemma NextMay(st: State, t: TaskId, y: InstanceId)
    requires Reachable(st) && Settled(st) && MayFollow(st, t, y)
    requires (t, st.instances[y].binding.scope) !in DoneAt(st)
    ensures exists x :: MayAttempt(st, t, st.instances[y].binding.scope, x)
  {
    hide Reachable, Inv, SyncClosed, SweptIn, Idle, IsCandidate, Selects, AntichainSeeds, Chosen, Admits;
    ReachableOk(st);
    var d, s := st.instances[y].binding.task, st.instances[y].binding.scope;
    var deps := map[d := y];
    assert st.tasks[t].dependsOn[0].task == d;
    assert DepTasks(st.tasks[t]) == {d};
    var x: InstanceId;
    if s == BASE {
      assert Admits(st, t, d, y) by {
        BaseAdmits(st, t, d, y);
      }
      AdmittedIsCandidate(st, t, deps);
      BasePresent(st);
      x := CandidateInstance(st, t, BASE, deps);
    } else {
      NextChosen(st, t, y);
      x := ChosenHasInstance(st, t, s, deps);
    }
    assert DepSatisfied(st.instances, deps, st.tasks[t].dependsOn[0]);
    SatisfiedMay(st, x);
  }

  lemma BaseAdmits(st: State, t: TaskId, d: TaskId, y: InstanceId)
    requires y in st.instances && st.instances[y].binding.task == d && st.instances[y].binding.scope == BASE
    requires ControlOwner(st.tasks, t) == Some(d) ==> Selects(st.tasks, GraphOf(st.instances), st.results, y, t)
    ensures Admits(st, t, d, y)
  {
  }

  lemma NextChosen(st: State, t: TaskId, y: InstanceId)
    requires Inv(st) && AntichainSeeds(st.tasks) && y in st.instances && t in st.tasks
    requires st.instances[y].binding.scope != BASE && DepTasks(st.tasks[t]) == {st.instances[y].binding.task}
    requires ControlOwner(st.tasks, t).None? ||
      (ControlOwner(st.tasks, t) == Some(st.instances[y].binding.task) &&
        Selects(st.tasks, GraphOf(st.instances), st.results, y, t))
    ensures Chosen(st, t, st.instances[y].binding.scope, map[st.instances[y].binding.task := y])
  {
    hide Inv, GraphOk, InstancesOk, ControlOk, StoreOk, Selects, AntichainSeeds, Descends, LeadsToSeed, Good, Clean,
      WellFormed, ScopesOk;
    InvParts(st);
    GraphParts(st);
    var g := GraphOf(st.instances);
    AntichainClean(st.tasks, st.scopes, g);
    CleanIsGood(st.tasks, st.scopes, g, y);
    ScopePresent(st, y);
    var d, s := g[y].task, g[y].scope;
    var deps := map[d := y];
    assert Choice(st, s, d, y);
    assert deps[d] == y;
    assert HangsOn(st, t, s, deps) && OwnerAllows(st, t, s, deps);
  }

  // ---------- links of a chain, one after the other ----------

  // i is a done instance of t in s.
  ghost predicate IsAt(st: State, i: InstanceId, t: TaskId, s: ScopeId) {
    i in st.instances && st.instances[i].binding.task == t && st.instances[i].binding.scope == s &&
    st.instances[i].status == Done
  }

  // Instance i of t in s is done now, and nothing else is that was not.
  ghost predicate Gained(st: State, st': State, i: InstanceId, t: TaskId, s: ScopeId) {
    IsAt(st', i, t, s) && DoneAt(st') == DoneAt(st) + {(t, s)} && st'.tasks == st.tasks
  }

  lemma EndedGained(st: State, i: InstanceId, dir: AttemptDir, st': State, t: TaskId, s: ScopeId)
    requires MayAttempt(st, t, s, i) && EndedWell(st, i, dir, st')
    ensures Gained(st, st', i, t, s) && t in st.tasks
    ensures StoredResult(st'.results, i) == KeptPayload(st.tasks[t], i, dir)
  {
    hide DoneAt, KeptPayload;
  }

  // None of the links from k on is done in s.
  ghost predicate NoneFrom(chain: seq<Link>, k: nat, s: ScopeId, st: State) {
    forall j :: k <= j < |chain| ==> (chain[j].id, s) !in DoneAt(st)
  }

  lemma GainedNext(chain: seq<Link>, k: nat, s: ScopeId, st: State, st': State, i: InstanceId)
    requires DistinctIds(chain) && k < |chain| && Gained(st, st', i, chain[k].id, s)
    ensures NoneFrom(chain, k, s, st) ==> NoneFrom(chain, k + 1, s, st')
    ensures forall r :: r != s && NoneFrom(chain, 0, r, st) ==> NoneFrom(chain, 0, r, st')
    ensures DoneAt(st) <= DoneAt(st') && (chain[k].id, s) in DoneAt(st')
  {
    hide DoneAt;
  }

  // The outcome is one that the task of the link accepts.
  ghost predicate Acceptable(chain: seq<Link>, k: nat, dir: AttemptDir)
    requires k < |chain|
  {
    forall x :: !Materialize(LinkTask(chain, k), x, dir).Refused?
  }

  // The link k may come after the instance y of the link before it.
  ghost predicate LetsGoOn(chain: seq<Link>, k: nat, st: State, y: InstanceId)
    requires 0 < k < |chain|
  {
    Owns(LinkTask(chain, k - 1), chain[k].id) ==> Selects(st.tasks, GraphOf(st.instances), st.results, y, chain[k].id)
  }

  lemma LinkFollows(chain: seq<Link>, k: nat, st: State, y: InstanceId, s: ScopeId)
    requires LoopsBack(chain) && 0 < k < |chain| && DistinctIds(chain) && st.tasks == ChainPool(chain)
    requires IsAt(st, y, chain[k - 1].id, s) && LetsGoOn(chain, k, st, y) && (s == BASE || AntichainSeeds(st.tasks))
    ensures MayFollow(st, chain[k].id, y)
  {
    hide LoopsBack, DistinctIds, ChainPool, AntichainSeeds, Selects, Owns;
    TaskOfLink(chain, k);
    ChainOwner(chain, k);
  }

  // The first link, in the base scope or in an iteration that starts with it.
  method TakeFirst(run: Run, chain: seq<Link>, s: ScopeId, dir: AttemptDir) returns (i: InstanceId, ghost mid: State)
    requires LoopsBack(chain) && DistinctIds(chain) && chain != [] && Acceptable(chain, 0, dir)
    requires run.Valid() && Settled(run.Current()) && run.tasks == ChainPool(chain)
    requires NoneFrom(chain, 0, s, run.Current())
    requires s in run.scopes && (s != BASE ==> chain[0].id in run.scopes[s].seeds)
    modifies run, run.store
    ensures run.Valid() && Settled(run.Current()) && old(run.history) <= run.history
    ensures MayAttempt(old(run.Current()), chain[0].id, s, i) && Attempted(old(run.Current()), i, dir, mid)
    ensures IsAt(run.Current(), i, chain[0].id, s) && NoneFrom(chain, 1, s, run.Current())
    ensures forall r :: r != s && NoneFrom(chain, 0, r, old(run.Current())) ==> NoneFrom(chain, 0, r, run.Current())
    ensures DoneAt(old(run.Current())) <= DoneAt(run.Current()) && (chain[0].id, s) in DoneAt(run.Current())
    ensures StoredResult(run.store.results, i) == KeptPayload(LinkTask(chain, 0), i, dir)
    ensures forall x :: WillRehearse(mid, x) ==> Decided(run.Current(), x)
  {
    hide RunOk, LoopsBack, DistinctIds, ChainPool, Settled, Attempted, WillRehearse, Decided, EndedWell, IsPlain,
      Materialize, DoneAt, KeptPayload;
    TaskOfLink(chain, 0);
    RunReachable(Initial(run.tasks, run.userInputs), run.history, run.Current());
    RootMay(run.Current(), chain[0].id, s);
    ghost var before := run.Current();
    i, mid := Complete(run, chain[0].id, s, dir);
    EndedGained(before, i, dir, run.Current(), chain[0].id, s);
    GainedNext(chain, 0, s, before, run.Current(), i);
  }

  // The next link, in the scope of the one before it.
  method TakeNext(run: Run, chain: seq<Link>, k: nat, y: InstanceId, s: ScopeId, dir: AttemptDir)
    returns (i: InstanceId, ghost mid: State)
    requires LoopsBack(chain) && DistinctIds(chain) && 0 < k < |chain| && Acceptable(chain, k, dir)
    requires run.Valid() && Settled(run.Current()) && run.tasks == ChainPool(chain)
    requires IsAt(run.Current(), y, chain[k - 1].id, s) && LetsGoOn(chain, k, run.Current(), y)
    requires NoneFrom(chain, k, s, run.Current()) && (s == BASE || AntichainSeeds(run.tasks))
    modifies run, run.store
    ensures run.Valid() && Settled(run.Current()) && old(run.history) <= run.history
    ensures MayAttempt(old(run.Current()), chain[k].id, s, i) && Attempted(old(run.Current()), i, dir, mid)
    ensures IsAt(run.Current(), i, chain[k].id, s) && NoneFrom(chain, k + 1, s, run.Current())
    ensures forall r :: r != s && NoneFrom(chain, 0, r, old(run.Current())) ==> NoneFrom(chain, 0, r, run.Current())
    ensures DoneAt(old(run.Current())) <= DoneAt(run.Current()) && (chain[k].id, s) in DoneAt(run.Current())
    ensures StoredResult(run.store.results, i) == KeptPayload(LinkTask(chain, k), i, dir)
    ensures forall x :: WillRehearse(mid, x) ==> Decided(run.Current(), x)
  {
    hide RunOk, LoopsBack, DistinctIds, ChainPool, Settled, Attempted, WillRehearse, Decided, EndedWell, DoneAt,
      IsPlain, Materialize, AntichainSeeds, LetsGoOn, MayFollow;
    TaskOfLink(chain, k);
    ghost var before := run.Current();
    RunReachable(Initial(run.tasks, run.userInputs), run.history, before);
    LinkFollows(chain, k, before, y, s);
    NextMay(before, chain[k].id, y);
    i, mid := Complete(run, chain[k].id, s, dir);
    EndedGained(before, i, dir, run.Current(), chain[k].id, s);
    GainedNext(chain, k, s, before, run.Current(), i);
  }

  // A new run of a chain: nothing is done yet.
  method Start(chain: seq<Link>) returns (run: Run)
    requires LoopsBack(chain) && chain != []
    ensures fresh(run) && fresh(run.store) && run.Valid() && run.tasks == ChainPool(chain)
    ensures Settled(run.Current()) && BASE in run.scopes && forall s :: NoneFrom(chain, 0, s, run.Current())
  {
    hide RunOk, LoopsBack, ValidTasks, SyncClosed, SweptIn, IsLeastSelection, NeverAborted, Refreshing, Idle;
    ChainValid(chain);
    ChainDistinct(chain);
    var pool := ChainPool(chain);
    AllAreRoots(pool);
    TaskOfLink(chain, 0);
    var created := CreateSnapshot(pool, pool.Keys, {}, map[], 1);
    run := created.value;
    AllSelected(run.tasks, pool);
    ghost var start := Initial(run.tasks, map[]);
    StartIdle(run.tasks, map[]);
    FreshRunOk(run.tasks, map[]);
    UpdatedIdle(start, [], start, run.history, run.Current());
    NothingDone(start, run.Current());
    RunInv(start, run.history, run.Current());
    BasePresent(run.Current());
  }

  lemma ChainDistinct(chain: seq<Link>)
    requires LoopsBack(chain)
    ensures DistinctIds(chain)
  {
  }

  lemma AllAreRoots(pool: Tasks)
    ensures RootIds(pool, pool.Keys, {}) == pool.Keys
  {
  }

  lemma AllSelected(part: Tasks, pool: Tasks)
    requires IsLeastSelection(part, pool, RootIds(pool, pool.Keys, {}))
    ensures part == pool
  {
    AllAreRoots(pool);
    assert forall t :: t in pool ==> Needed(pool, pool.Keys, t);
  }

  lemma StartIdle(tasks: Tasks, userInputs: map<string, Json>)
    ensures Idle(Initial(tasks, userInputs))
  {
  }

  lemma NothingDone(start: State, st: State)
    requires start.instances == map[] && Refreshing(start, st)
    ensures DoneAt(st) == {}
  {
    forall x | x in st.instances && st.instances[x].status == Done
      ensures false
    {
      DoneBefore(start, st, x);
    }
  }
}
