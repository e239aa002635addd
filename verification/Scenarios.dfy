// Runs of the scheduler that end where one would not expect it.
module Scenarios {
  import opened Domain
  import opened TaskGraph
  import opened InstanceGraph
  import opened Iterations
  import opened TaskOrder
  import opened ControlEnvelope
  import opened RunState
  import opened Invariants
  import opened Preservation
  import opened RunTheorems
  import opened RunProgress
  import opened RunSteps
  import opened ClosedRuns
  import opened SeedOrder
  import opened SyncVisits
  import opened EarlyVisits
  import opened Rehearsal
  import opened RehearsedSync
  import opened TaskPool
  import opened RunService
  import opened ChainRuns

  // ---------- what workers leave behind ----------

  const GO_ON := Control(LoopKind, [], Some(Continue), [("round", "2")])
  const HALT := Control(LoopKind, [], Some(Stop), [])

  const NOTHING := AttemptDir(NoResult, {})
  const GOES_ON := AttemptDir(Parsed(Payload(Some(GO_ON))), {})
  const HALTS := AttemptDir(Parsed(Payload(Some(HALT))), {})

  lemma GoOnAccepted()
    ensures Validated(GO_ON) == Some(GO_ON) && Validated(HALT) == Some(HALT)
  {
    assert Strip("round") == "round";
    assert Normalized([]) == Some([]);
    assert GO_ON.nextInputs[..0] == [];
    assert Normalized(GO_ON.nextInputs) == Some([("round", "2")]);
  }

  lemma LinkAccepts(chain: seq<Link>, k: nat)
    requires k < |chain|
    ensures chain[k].control.None? ==> Acceptable(chain, k, NOTHING)
    ensures IsLoop(chain, k) ==> Acceptable(chain, k, GOES_ON) && Acceptable(chain, k, HALTS)
  {
    hide Validated;
    GoOnAccepted();
  }

  lemma LoopStores(chain: seq<Link>, k: nat, i: InstanceId)
    requires k < |chain|
    ensures IsLoop(chain, k) ==>
      ControlFor(LinkTask(chain, k), Payload(Some(GO_ON))) == Some(GO_ON) &&
      ControlFor(LinkTask(chain, k), Payload(Some(HALT))) == Some(HALT)
    ensures IsLoop(chain, k) ==> KeptPayload(LinkTask(chain, k), i, GOES_ON) == Some(Payload(Some(GO_ON)))
    ensures IsLoop(chain, k) ==> KeptPayload(LinkTask(chain, k), i, HALTS) == Some(Payload(Some(HALT)))
  {
    hide Validated;
    GoOnAccepted();
  }

  predicate IsLoop(chain: seq<Link>, k: nat)
    requires k < |chain|
  {
    chain[k].control.Some? && chain[k].control.value.LoopMode?
  }

  // A loop controller that has just asked to go on is owed its scope.
  lemma GoesOnMayOpen(st: State, chain: seq<Link>, k: nat, s: ScopeId, i: InstanceId, mid: State)
    requires Inv(st) && DistinctIds(chain) && k < |chain| && IsLoop(chain, k) && st.tasks == ChainPool(chain)
    requires MayAttempt(st, chain[k].id, s, i) && Attempted(st, i, GOES_ON, mid)
    ensures MayOpenScope(mid, i) && GraphOf(mid.instances) == GraphOf(st.instances)
  {
    hide GraphOk, InstancesOk, StoreOk, OwnerOk, ControlFor, Materialize, IsPlain, NextInputs, DistinctIds, ChainPool,
      LinkTask, Acceptable;
    TaskOfLink(chain, k);
    LinkControl(chain, k);
    LoopStores(chain, k, i);
    BaseUncreated(st);
    assert forall s :: s in st.scopes && s != BASE ==> ScopeFed(st, s);
    SameGraph(st, i, GOES_ON, mid);
  }

  lemma SameGraph(st: State, i: InstanceId, dir: AttemptDir, mid: State)
    requires Attempted(st, i, dir, mid)
    ensures GraphOf(mid.instances) == GraphOf(st.instances)
  {
  }

  lemma LinkControl(chain: seq<Link>, k: nat)
    requires k < |chain|
    ensures LinkTask(chain, k).control == chain[k].control
  {
  }

  lemma BaseUncreated(st: State)
    requires Inv(st)
    ensures BASE in st.scopes && st.scopes[BASE].creator == None
  {
    hide ValidTasks, WellFormed, ControlOk, InstancesOk, StoreOk;
  }

  lemma IterationSeeds(st: State, r: ScopeId)
    requires Inv(st) && r in st.scopes && r != BASE
    ensures
      var creator := st.scopes[r].creator;
      creator.Some? && creator.value in st.instances && st.instances[creator.value].binding.task in st.tasks &&
      st.scopes[r].seeds == ContinueTargets(st.tasks[st.instances[creator.value].binding.task])
  {
    hide ValidTasks, WellFormed, ControlOk, InstancesOk, StoreOk;
    assert ScopeOk(st.tasks, st.scopes, GraphOf(st.instances), r);
  }

  // ---------- an iteration with two instances of one task ----------

  // "a" depends on "b", both are continue targets of "c", and "a" is visited first.
  const NESTED := [Link("b", None), Link("a", None), Link("c", Some(LoopMode(["a", "b"], [])))]

  lemma NestedLoops()
    ensures LoopsBack(NESTED) && DistinctIds(NESTED)
  {
    hide NESTED, LinkTask, LinkOk, DistinctIds;
    NestedDistinct();
    NestedTargets();
    NestedOk();
  }

  lemma NestedDistinct()
    ensures DistinctIds(NESTED)
  {
    assert "b"[0] != "a"[0] && "b"[0] != "c"[0] && "a"[0] != "c"[0];
  }

  lemma NestedTargets()
    ensures |NESTED| == 3 && Untargeting(LinkTask(NESTED, 0)) && Untargeting(LinkTask(NESTED, 1))
    ensures OwnedTargets(LinkTask(NESTED, 2)) == []
    ensures ContinueTargets(LinkTask(NESTED, 2)) == [NESTED[1].id, NESTED[0].id]
    ensures ControlTargets(LinkTask(NESTED, 2)) == [NESTED[1].id, NESTED[0].id]
  {
    assert [] + ["a", "b"] == ["a", "b"];
  }

  predicate Untargeting(task: Task) {
    ControlTargets(task) == [] && OwnedTargets(task) == [] && ContinueTargets(task) == []
  }

  lemma NestedOk()
    ensures |NESTED| == 3 && forall k :: 0 <= k < 3 ==> LinkOk(NESTED, k)
  {
    hide LinkTask, NESTED;
    NestedDistinct();
    NestedTargets();
    assert IdBefore(NESTED, 2, NESTED[0].id) && IdBefore(NESTED, 2, NESTED[1].id);
  }

  lemma NestedEarly()
    requires DistinctIds(NESTED)
    ensures EarlySeed(ChainPool(NESTED), ["a", "b"], "a")
  {
    hide ChainPool, LinkTask, IsAncestor, Between;
    NestedLoops();
    var pool := ChainPool(NESTED);
    TaskOfLink(NESTED, 1);
    NestedFree();
    assert NESTED[1].id == "a" && NESTED[0].id == "b";
    assert IdBefore(NESTED, 1, "b");
    ChainAncestor(NESTED, 1, "b");
    assert IsAncestor(pool, "b", "a") && "b" in ["a", "b"];
    forall d | IsAncestor(pool, d, "a")
      ensures Precedes("a", d)
    {
      ChainAncestor(NESTED, 1, d);
      assert d == "b";
    }
  }

  lemma NestedFree()
    requires DistinctIds(NESTED)
    ensures BetweenFree(ChainPool(NESTED), ["a", "b"])
  {
    hide Between, ChainPool;
    NestedLoops();
    forall d | d in ChainPool(NESTED)
      ensures ControlOwner(ChainPool(NESTED), d).None?
    {
      var k := LinkOf(NESTED, d);
      ChainOwner(NESTED, k);
    }
  }

  lemma NestedLinks()
    ensures |NESTED| == 3 && NESTED[0].control.None? && NESTED[1].control.None? && IsLoop(NESTED, 2)
    ensures forall k, t :: 0 <= k < 3 ==> !Owns(LinkTask(NESTED, k), t)
  {
  }

  lemma NestedWillRehearse(st: State, c: InstanceId, mid: State)
    requires DistinctIds(NESTED) && Inv(st) && st.tasks == ChainPool(NESTED)
    requires MayAttempt(st, NESTED[2].id, BASE, c) && Attempted(st, c, GOES_ON, mid)
    ensures WillRehearse(mid, c)
  {
    hide LoopsBack, DistinctIds, ChainPool, Inv, MayOpenScope, HasInScope, LeadsToSeed, IsPlain;
    NestedLinks();
    TaskOfLink(NESTED, 2);
    GoesOnMayOpen(st, NESTED, 2, BASE, c, mid);
    BaseControllerReady(st, c);
  }

  // The iteration that x has opened has two instances of one task.
  ghost predicate Doubles(st: State, x: InstanceId) {
    exists s, i, j :: OpenedBy(st, x, s) && DoubledBy(st, s, i, j)
  }

  lemma NestedDoubles(st: State, c: InstanceId)
    requires LoopsBack(NESTED) && DistinctIds(NESTED) && Inv(st) && st.tasks == ChainPool(NESTED)
    requires IsAt(st, c, NESTED[2].id, BASE) && Decided(st, c)
    ensures Doubles(st, c)
  {
    hide LoopsBack, DistinctIds, ChainPool, Inv, OrderSuits, DoubledBy, BetweenFree, AllGood, EarlySeed, IsPlain;
    NestedEarly();
    NestedFree();
    NestedTargets();
    TaskOfLink(NESTED, 2);
    ChainValid(NESTED);
    EarlySeedUnsuited(st.tasks, NESTED[2].id, "a");
    var s :| OpenedBy(st, c, s) && IsDecided(st, s);
    IterationSeeds(st, s);
    var i, j :| DoubledBy(st, s, i, j);
    assert OpenedBy(st, c, s) && DoubledBy(st, s, i, j);
  }

  // Up to the controller of the loop.
  method NestedBase() returns (run: Run, a: InstanceId)
    ensures LoopsBack(NESTED) && DistinctIds(NESTED)
    ensures fresh(run) && fresh(run.store) && run.Valid() && Settled(run.Current()) && run.tasks == ChainPool(NESTED)
    ensures IsAt(run.Current(), a, NESTED[1].id, BASE) && NoneFrom(NESTED, 2, BASE, run.Current())
    ensures (NESTED[0].id, BASE) in DoneAt(run.Current())
  {
    hide RunOk, LoopsBack, DistinctIds, ChainPool, Settled, Attempted, WillRehearse, Decided, Acceptable, DoneAt,
      NESTED, LinkTask, Owns, KeptPayload, MayAttempt, NoneFrom;
    NestedLoops();
    NestedLinks();
    LinkAccepts(NESTED, 0);
    LinkAccepts(NESTED, 1);
    run := Start(NESTED);
    var b, _ := TakeFirst(run, NESTED, BASE, NOTHING);
    ghost var mid;
    a, mid := TakeNext(run, NESTED, 1, b, BASE, NOTHING);
  }

  // The first iteration of this loop ends sync with two instances of one task.
  method DoubledIteration() returns (run: Run, c: InstanceId)
    ensures DistinctIds(NESTED) && fresh(run) && run.Valid() && run.tasks == ChainPool(NESTED)
    ensures IsAt(run.Current(), c, NESTED[2].id, BASE) && Doubles(run.Current(), c)
  {
    hide RunOk, LoopsBack, DistinctIds, ChainPool, Settled, Attempted, WillRehearse, Decided, Acceptable, DoneAt,
      NESTED, LinkTask, Owns, KeptPayload, MayAttempt, NoneFrom, GOES_ON, HALTS, NOTHING;
    var a;
    run, a := NestedBase();
    NestedLinks();
    LinkAccepts(NESTED, 2);
    ghost var before, mid := run.Current(), run.Current();
    RunInv(Initial(run.tasks, run.userInputs), run.history, before);
    c, mid := TakeNext(run, NESTED, 2, a, BASE, GOES_ON);
    NestedWillRehearse(before, c, mid);
    RunInv(Initial(run.tasks, run.userInputs), run.history, run.Current());
    NestedDoubles(run.Current(), c);
  }

  // ---------- an iteration that never starts ----------

  // "c1" goes back to "a" and stops at "b"; "c2", further down, goes back to "e", which depends on "b".
  const TWO_LOOPS := [
    Link("a", None), Link("c1", Some(LoopMode(["a"], ["b"]))), Link("b", None), Link("e", None),
    Link("c2", Some(LoopMode(["e"], [])))]

  lemma TwoLoopsBack()
    ensures LoopsBack(TWO_LOOPS) && DistinctIds(TWO_LOOPS)
  {
    hide TWO_LOOPS, LinkTask, LinkOk, DistinctIds;
    TwoLoopsDistinct();
    TwoLoopsTargets();
    TwoLoopsOk();
  }

  lemma TwoLoopsOk()
    ensures |TWO_LOOPS| == 5 && forall k :: 0 <= k < 5 ==> LinkOk(TWO_LOOPS, k)
  {
    hide LinkTask, TWO_LOOPS;
    TwoLoopsDistinct();
    TwoLoopsTargets();
    assert IdBefore(TWO_LOOPS, 1, TWO_LOOPS[0].id) && IdBefore(TWO_LOOPS, 4, TWO_LOOPS[3].id);
  }

  lemma TwoLoopsDistinct()
    ensures DistinctIds(TWO_LOOPS)
  {
    assert "a"[0] != "b"[0] && "a"[0] != "e"[0] && "b"[0] != "e"[0];
    assert "c1"[1] != "c2"[1] && |"c1"| == 2 && |"c2"| == 2 && |"a"| == 1 && |"b"| == 1 && |"e"| == 1;
  }

  lemma TwoLoopsTargets()
    ensures |TWO_LOOPS| == 5
    ensures forall k :: 0 <= k < 5 && k != 1 && k != 4 ==> Untargeting(LinkTask(TWO_LOOPS, k))
    ensures ControlTargets(LinkTask(TWO_LOOPS, 1)) == [TWO_LOOPS[2].id, TWO_LOOPS[0].id]
    ensures OwnedTargets(LinkTask(TWO_LOOPS, 1)) == [TWO_LOOPS[2].id]
    ensures ContinueTargets(LinkTask(TWO_LOOPS, 1)) == [TWO_LOOPS[0].id]
    ensures ControlTargets(LinkTask(TWO_LOOPS, 4)) == [TWO_LOOPS[3].id] && OwnedTargets(LinkTask(TWO_LOOPS, 4)) == []
    ensures ContinueTargets(LinkTask(TWO_LOOPS, 4)) == [TWO_LOOPS[3].id]
  {
    assert ["b"] + ["a"] == ["b", "a"] && [] + ["e"] == ["e"];
  }

  lemma TwoLoopsKinds()
    ensures |TWO_LOOPS| == 5 && IsLoop(TWO_LOOPS, 1) && IsLoop(TWO_LOOPS, 4)
    ensures TWO_LOOPS[0].control.None? && TWO_LOOPS[2].control.None? && TWO_LOOPS[3].control.None?
    ensures TWO_LOOPS[0].id in ContinueTargets(LinkTask(TWO_LOOPS, 1))
    ensures TWO_LOOPS[3].id in ContinueTargets(LinkTask(TWO_LOOPS, 4))
    ensures Owns(LinkTask(TWO_LOOPS, 1), TWO_LOOPS[2].id)
    ensures forall k, t :: 0 <= k < 4 && k != 1 ==> !Owns(LinkTask(TWO_LOOPS, k), t)
  {
    hide LinkTask;
    TwoLoopsTargets();
  }

  lemma TwoLoopsAntichain()
    requires LoopsBack(TWO_LOOPS) && DistinctIds(TWO_LOOPS)
    ensures AntichainSeeds(ChainPool(TWO_LOOPS))
  {
    hide LoopsBack, LinkTask, DistinctIds, ChainPool, AntichainSeeds, TWO_LOOPS;
    TwoLoopsTargets();
    ChainAntichain(TWO_LOOPS);
  }

  // Sync has opened the scope that a loop controller asked for.
  lemma OwedScope(st: State, chain: seq<Link>, k: nat, s: ScopeId, x: InstanceId)
    requires Inv(st) && SyncClosed(st) && DistinctIds(chain) && k < |chain| && IsLoop(chain, k)
    requires st.tasks == ChainPool(chain)
    requires IsAt(st, x, chain[k].id, s) && StoredResult(st.results, x) == Some(Payload(Some(GO_ON)))
    ensures exists r :: IsIteration(st, chain, k, x, r)
  {
    hide GraphOk, ControlOk, InstancesOk, StoreOk, ControlFor, IsPlain, DistinctIds, ChainPool, LinkTask, AllSynced;
    TaskOfLink(chain, k);
    LinkControl(chain, k);
    LoopStores(chain, k, x);
    assert !MayOpenScope(st, x);
    var r :| r in st.scopes && st.scopes[r].creator == Some(x);
    BaseUncreated(st);
    IterationSeeds(st, r);
    assert IsIteration(st, chain, k, x, r);
  }

  // r is the iteration that x, the instance of the link k, has opened.
  ghost predicate IsIteration(st: State, chain: seq<Link>, k: nat, x: InstanceId, r: ScopeId)
    requires k < |chain|
  {
    r in st.scopes && r != BASE && st.scopes[r].creator == Some(x) &&
    st.scopes[r].seeds == ContinueTargets(LinkTask(chain, k))
  }

  lemma HaltSelects(st: State, chain: seq<Link>, k: nat, s: ScopeId, y: InstanceId, t: TaskId)
    requires DistinctIds(chain) && k < |chain| && IsLoop(chain, k) && st.tasks == ChainPool(chain)
    requires IsAt(st, y, chain[k].id, s) && Owns(LinkTask(chain, k), t)
    ensures StoredResult(st.results, y) == Some(Payload(Some(HALT))) ==>
      Selects(st.tasks, GraphOf(st.instances), st.results, y, t)
    ensures StoredResult(st.results, y) == Some(Payload(Some(GO_ON))) ==>
      !Selects(st.tasks, GraphOf(st.instances), st.results, y, t)
  {
    hide ControlFor, IsPlain, DistinctIds, ChainPool, Acceptable;
    TaskOfLink(chain, k);
    LoopStores(chain, k, y);
  }

  lemma TwoLoopsStarved(st: State, x: InstanceId)
    requires LoopsBack(TWO_LOOPS) && DistinctIds(TWO_LOOPS) && st.tasks == ChainPool(TWO_LOOPS)
    requires IsAt(st, x, TWO_LOOPS[1].id, BASE) && StoredResult(st.results, x) == Some(Payload(Some(GO_ON)))
    ensures Starved(st, TWO_LOOPS[3].id, TWO_LOOPS[2].id, x)
  {
    hide LoopsBack, DistinctIds, ChainPool, LinkTask, TWO_LOOPS, Owns, Selects, IsPlain;
    TwoLoopsKinds();
    TaskOfLink(TWO_LOOPS, 3);
    ChainOwner(TWO_LOOPS, 2);
    HaltSelects(st, TWO_LOOPS, 1, BASE, x, TWO_LOOPS[2].id);
  }

  // The iteration that x has opened.
  method IterationOf(run: Run, chain: seq<Link>, k: nat, ghost s: ScopeId, x: InstanceId) returns (r: ScopeId)
    requires run.Valid() && Settled(run.Current()) && DistinctIds(chain) && k < |chain| && IsLoop(chain, k)
    requires run.tasks == ChainPool(chain) && IsAt(run.Current(), x, chain[k].id, s)
    requires StoredResult(run.store.results, x) == Some(Payload(Some(GO_ON)))
    ensures IsIteration(run.Current(), chain, k, x, r) && r != BASE && r in run.scopes
  {
    hide RunOk, DistinctIds, ChainPool, LinkTask, Idle, SweptIn, SyncClosed;
    RunInv(Initial(run.tasks, run.userInputs), run.history, run.Current());
    OwedScope(run.Current(), chain, k, s, x);
    ghost var found :| IsIteration(run.Current(), chain, k, x, found);
    r :| r in run.scopes && r != BASE && run.scopes[r].creator == Some(x);
    IterationSeeds(run.Current(), r);
    IterationSeeds(run.Current(), found);
  }

  // In the base scope the first loop goes on, so "b" is not chosen there.
  method FirstRound() returns (run: Run, x: InstanceId, r: ScopeId)
    ensures LoopsBack(TWO_LOOPS) && DistinctIds(TWO_LOOPS) && fresh(run) && fresh(run.store)
    ensures run.Valid() && Settled(run.Current()) && run.tasks == ChainPool(TWO_LOOPS)
    ensures Starved(run.Current(), TWO_LOOPS[3].id, TWO_LOOPS[2].id, x)
    ensures IsIteration(run.Current(), TWO_LOOPS, 1, x, r) && NoneFrom(TWO_LOOPS, 0, r, run.Current())
  {
    hide RunOk, LoopsBack, DistinctIds, ChainPool, Settled, Attempted, WillRehearse, Decided, Acceptable, DoneAt,
      TWO_LOOPS, LinkTask, Owns, MayAttempt, NoneFrom, GOES_ON, HALTS, NOTHING, Starved, IsIteration, Selects,
      KeptPayload, GO_ON, HALT, ControlFor;
    TwoLoopsBack();
    TwoLoopsKinds();
    LinkAccepts(TWO_LOOPS, 0);
    LinkAccepts(TWO_LOOPS, 1);
    run := Start(TWO_LOOPS);
    var a, _ := TakeFirst(run, TWO_LOOPS, BASE, NOTHING);
    ghost var mid;
    x, mid := TakeNext(run, TWO_LOOPS, 1, a, BASE, GOES_ON);
    LoopStores(TWO_LOOPS, 1, x);
    TwoLoopsStarved(run.Current(), x);
    r := IterationOf(run, TWO_LOOPS, 1, BASE, x);
  }

  // In the first iteration it stops, so "b" and what follows exist there, and the second loop goes on.
  method SecondRound(run: Run, r: ScopeId) returns (z: InstanceId)
    requires LoopsBack(TWO_LOOPS) && DistinctIds(TWO_LOOPS)
    requires run.Valid() && Settled(run.Current()) && run.tasks == ChainPool(TWO_LOOPS)
    requires r in run.scopes && TWO_LOOPS[0].id in run.scopes[r].seeds && NoneFrom(TWO_LOOPS, 0, r, run.Current())
    modifies run, run.store
    ensures run.Valid() && Settled(run.Current()) && old(run.history) <= run.history
    ensures IsAt(run.Current(), z, TWO_LOOPS[4].id, r)
    ensures StoredResult(run.store.results, z) == Some(Payload(Some(GO_ON)))
  {
    hide RunOk, LoopsBack, DistinctIds, ChainPool, Settled, Attempted, WillRehearse, Decided, Acceptable, DoneAt,
      TWO_LOOPS, LinkTask, Owns, MayAttempt, NoneFrom, GOES_ON, HALTS, NOTHING, Selects, KeptPayload, GO_ON, HALT,
      ControlFor, AntichainSeeds;
    TwoLoopsKinds();
    TwoLoopsAntichain();
    forall k | 0 <= k < 5
      ensures TWO_LOOPS[k].control.None? ==> Acceptable(TWO_LOOPS, k, NOTHING)
      ensures IsLoop(TWO_LOOPS, k) ==> Acceptable(TWO_LOOPS, k, GOES_ON) && Acceptable(TWO_LOOPS, k, HALTS)
    {
      LinkAccepts(TWO_LOOPS, k);
    }
    ghost var mid;
    var a, c, b, e;
    a, mid := TakeFirst(run, TWO_LOOPS, r, NOTHING);
    c, mid := TakeNext(run, TWO_LOOPS, 1, a, r, HALTS);
    LoopStores(TWO_LOOPS, 1, c);
    HaltSelects(run.Current(), TWO_LOOPS, 1, r, c, TWO_LOOPS[2].id);
    b, mid := TakeNext(run, TWO_LOOPS, 2, c, r, NOTHING);
    e, mid := TakeNext(run, TWO_LOOPS, 3, b, r, NOTHING);
    z, mid := TakeNext(run, TWO_LOOPS, 4, e, r, GOES_ON);
    LoopStores(TWO_LOOPS, 4, z);
  }

  // The iteration of the second loop is never given its seed, whatever happens from then on.
  method StarvedSeed() returns (run: Run, x: InstanceId, s: ScopeId)
    ensures DistinctIds(TWO_LOOPS) && fresh(run) && run.Valid() && run.tasks == ChainPool(TWO_LOOPS)
    ensures s in run.scopes && TWO_LOOPS[3].id in run.scopes[s].seeds
    ensures Starved(run.Current(), TWO_LOOPS[3].id, TWO_LOOPS[2].id, x)
    ensures forall actions, st :: IsRun(run.Current(), actions, st) ==>
      !HasInScope(GraphOf(st.instances), TWO_LOOPS[3].id, s)
  {
    hide RunOk, LoopsBack, DistinctIds, ChainPool, Settled, TWO_LOOPS, LinkTask, NoneFrom, Starved, HasInScope, GO_ON;
    var r;
    run, x, r := FirstRound();
    TwoLoopsKinds();
    ghost var before, soFar := run.Current(), run.history;
    var z := SecondRound(run, r);
    s := IterationOf(run, TWO_LOOPS, 4, r, z);
    StarvedOn(Initial(run.tasks, run.userInputs), soFar, before, run.history, run.Current(), x, s);
  }

  lemma StarvedOn(start: State, history: seq<Action>, st: State, history': seq<Action>, st': State, x: InstanceId,
                  s: ScopeId)
    requires RunOk(start, history, st) && RunOk(start, history', st') && history <= history'
    requires LoopsBack(TWO_LOOPS) && DistinctIds(TWO_LOOPS) && st.tasks == ChainPool(TWO_LOOPS)
    requires Starved(st, TWO_LOOPS[3].id, TWO_LOOPS[2].id, x)
    requires s in st'.scopes && s != BASE && TWO_LOOPS[3].id in st'.scopes[s].seeds
    ensures Starved(st', TWO_LOOPS[3].id, TWO_LOOPS[2].id, x)
    ensures forall actions, end :: IsRun(st', actions, end) ==> !HasInScope(GraphOf(end.instances), TWO_LOOPS[3].id, s)
  {
    hide RunOk, LoopsBack, DistinctIds, ChainPool, TWO_LOOPS, Starved, HasInScope, IsRun, AntichainSeeds, Reachable,
      Inv, Evolves;
    var added := Added(history, history');
    assert history' == history + added;
    StretchOfRun(start, history, st, added, st');
    RunKeeps(st, added, st');
    TwoLoopsKinds();
    StarvedStays(st, st', TWO_LOOPS[3].id, TWO_LOOPS[2].id, x);
    TwoLoopsAntichain();
    forall actions, end | IsRun(st', actions, end)
      ensures !HasInScope(GraphOf(end.instances), TWO_LOOPS[3].id, s)
    {
      ScopeKept(st', actions, end, s);
      StarvedNeverStarts(st', actions, end, TWO_LOOPS[3].id, TWO_LOOPS[2].id, x, s);
    }
  }

  lemma ScopeKept(st: State, actions: seq<Action>, st': State, s: ScopeId)
    requires Reachable(st) && IsRun(st, actions, st') && s in st.scopes
    ensures s in st'.scopes && st'.scopes[s] == st.scopes[s]
  {
    hide Reachable, Inv, IsRun;
    ReachableOk(st);
    RunKeeps(st, actions, st');
  }

  // ---------- an aborted run that is reported done ----------

  const ALONE := [Link("t", None)]

  lemma AloneFacts()
    ensures ALONE != [] && LoopsBack(ALONE) && DistinctIds(ALONE) && NoLoops(ChainPool(ALONE))
    ensures |ChainPool(ALONE)| == 1
  {
    assert LinkOk(ALONE, 0);
    assert ChainPool(ALONE).Keys == {"t"};
    assert |ChainPool(ALONE)| == |ChainPool(ALONE).Keys|;
  }

  // The only instance there is.
  lemma OnlyInstance(st: State, i: InstanceId)
    requires |st.instances| <= 1 && i in st.instances
    ensures forall j :: j in st.instances ==> j == i
  {
    forall j | j in st.instances
      ensures j == i
    {
      SubsetSize({i, j}, st.instances.Keys);
      assert |st.instances.Keys| == |st.instances|;
    }
  }

  lemma AbortedSkips(st: State, i: InstanceId, st': State)
    requires i in st.instances && st.instances[i].status == Runnable
    requires i in st'.instances && st'.instances[i] == AfterAbort(st.instances[i])
    ensures IsAborted(st', i)
  {
  }

  lemma AloneReportedDone(start: State, history: seq<Action>, st: State, history': seq<Action>, st': State,
                          i: InstanceId)
    requires RunOk(start, history, st) && RunOk(start, history', st') && history <= history'
    requires NoLoops(st'.tasks) && |st'.tasks| == 1 && IsAborted(st, i)
    ensures IsAborted(st', i) && FinalStatus(Statuses(st'.instances)) == RunDone
    ensures forall j :: j in st'.instances ==> j == i
  {
    hide RunOk, IsRun, Inv, Reachable, NoLoops;
    var added := Added(history, history');
    assert history' == history + added;
    StretchOfRun(start, history, st, added, st');
    AbortedStays(st, added, st', i);
    InstancesWithoutLoops(st');
    OnlyInstance(st', i);
    StatusesDecide(st'.instances);
  }

  // Abort a new run of one task, and resume it: nothing was ever done, and the run is reported done.
  method AbortedButDone() returns (run: Run, i: InstanceId)
    ensures DistinctIds(ALONE) && fresh(run) && run.Valid() && run.tasks == ChainPool(ALONE)
    ensures run.status == RunDone && IsAborted(run.Current(), i) && forall j :: j in run.instances ==> j == i
  {
    hide RunOk, LoopsBack, ChainPool, NoneFrom, ALONE, SyncClosed, SweptIn, IsAborted, AfterAbort, FinalStatus,
      Statuses, NoLoops, AtRest, Continued;
    AloneFacts();
    run := Start(ALONE);
    i := FirstOf(run, ALONE);
    ghost var started := run.Current();
    run.AbortRun();
    AbortedSkips(started, i, run.Current());
    ghost var before, soFar := run.Current(), run.history;
    var returned, _, _ := run.ResumeRun(j => WorkerDead, 2, (j, n) => Outcome([], COMPLETED, NOTHING), []);
    AloneReportedDone(Initial(run.tasks, run.userInputs), soFar, before, run.history, run.Current(), i);
  }

  // The instance of the first link, which is ready in a new run.
  method FirstOf(run: Run, chain: seq<Link>) returns (i: InstanceId)
    requires run.Valid() && Settled(run.Current()) && DistinctIds(chain) && chain != [] && run.tasks == ChainPool(chain)
    requires BASE in run.scopes && NoneFrom(chain, 0, BASE, run.Current())
    ensures MayAttempt(run.Current(), chain[0].id, BASE, i)
  {
    hide RunOk, DistinctIds, ChainPool, Settled, DoneAt;
    TaskOfLink(chain, 0);
    RunReachable(Initial(run.tasks, run.userInputs), run.history, run.Current());
    RootMay(run.Current(), chain[0].id, BASE);
    ghost var found :| MayAttempt(run.Current(), chain[0].id, BASE, found);
    i :| i in run.instances && run.instances[i].binding.task == chain[0].id && run.instances[i].binding.scope == BASE &&
      run.instances[i].status == Runnable;
  }
}
