// What the history of a run keeps of its attempts: what each worker asked for and left, and which replies came.
module Episodes {
  import opened Domain
  import opened TaskGraph
  import opened InstanceGraph
  import opened RunState
  import opened Invariants
  import opened Preservation
  import opened RunTheorems
  import opened RunProgress
  import opened RunSteps

  // A reply under way.
  datatype Message = Message(interrupt: InterruptId, reply: Reply)

  // These steps are the requests, each on behalf of i.
  ghost predicate Asked(steps: seq<Action>, i: InstanceId, asks: seq<Interrupt>) {
    |steps| == |asks| && forall k :: 0 <= k < |asks| ==> IsRequest(steps[k], i, asks[k])
  }

  ghost predicate IsRequest(step: Action, i: InstanceId, ask: Interrupt) {
    step.Ask? && step.request == ask.(instance := i, status := Open)
  }

  // The replies that are saved when these messages arrive in order: all but those to unknown interrupts.
  ghost function Arrivals(messages: seq<Message>, known: set<InterruptId>): seq<Action> {
    if messages == [] then [] else
      var last := messages[|messages| - 1];
      Arrivals(messages[..|messages| - 1], known) +
        if last.interrupt in known then [Answer(last.interrupt, last.reply)] else []
  }

  lemma {:induction false} ArrivalsHeard(before: seq<Action>, after: seq<Action>, messages: seq<Message>,
                                         known: set<InterruptId>, world: (InstanceId, nat) -> Outcome,
                                         inbox: seq<Message>)
    requires before <= after && Added(before, after) == Arrivals(messages, known) && Within(messages, inbox)
    ensures Heard(before, after, world, inbox)
  {
    forall k | |before| <= k < |after|
      ensures IsHeard(after, k, world, inbox)
    {
      assert after[k] == Added(before, after)[k - |before|];
      ArrivalIsMessage(messages, known, k - |before|);
    }
  }

  lemma {:induction false} ArrivalIsMessage(messages: seq<Message>, known: set<InterruptId>, k: nat)
    requires k < |Arrivals(messages, known)|
    ensures
      var step := Arrivals(messages, known)[k];
      step.Answer? && Message(step.interrupt, step.reply) in messages
  {
    var init := messages[..|messages| - 1];
    if k < |Arrivals(init, known)| {
      ArrivalIsMessage(init, known, k);
    }
  }

  lemma EpisodeOf(before: seq<Action>, mid: seq<Action>, after: seq<Action>, i: InstanceId, outcome: Outcome)
    requires before <= mid < after && Asked(Added(before, mid), i, outcome.asks)
    requires Continued(mid, after[..|after| - 1], IsApply)
    requires after[|after| - 1] == Finish(i, outcome.result, outcome.dir)
    ensures before <= after && IsEpisode(Added(before, after), i, outcome)
  {
    var steps, n := Added(before, after), |outcome.asks|;
    assert steps[..n] == Added(before, mid);
    forall k | n <= k < |steps| - 1
      ensures steps[k].Apply?
    {
      assert steps[k] == after[..|after| - 1][|before| + k];
    }
  }

  // The last steps of an attempt of i: what its worker asked for, replies marked as seen, and its end with what
  // the worker returned and left.
  ghost predicate IsEpisode(steps: seq<Action>, i: InstanceId, outcome: Outcome) {
    |steps| > |outcome.asks| && Asked(steps[..|outcome.asks|], i, outcome.asks) &&
    (forall k :: |outcome.asks| <= k < |steps| - 1 ==> steps[k].Apply?) &&
    steps[|steps| - 1] == Finish(i, outcome.result, outcome.dir)
  }

  // The number of attempts of i begun.
  ghost function AttemptsOf(history: seq<Action>, i: InstanceId): nat {
    multiset(Begins(history))[i]
  }

  // If step k ends an attempt, it does so as the worker of just this attempt did; if it saves a reply, it is one
  // of those that came.
  ghost predicate IsHeard(history: seq<Action>, k: int, world: (InstanceId, nat) -> Outcome, inbox: seq<Message>)
    requires 0 <= k < |history|
  {
    (history[k].Finish? ==> exists m :: EndsEpisode(history, m, k, world)) &&
    (history[k].Answer? ==> Message(history[k].interrupt, history[k].reply) in inbox)
  }

  ghost predicate EndsEpisode(history: seq<Action>, m: int, k: int, world: (InstanceId, nat) -> Outcome)
    requires 0 <= k < |history| && history[k].Finish?
  {
    0 <= m <= k &&
    var i := history[k].id;
    IsEpisode(history[m..k + 1], i, world(i, AttemptsOf(history[..m], i)))
  }

  ghost predicate Heard(before: seq<Action>, after: seq<Action>, world: (InstanceId, nat) -> Outcome,
                        inbox: seq<Message>) {
    before <= after && forall k :: |before| <= k < |after| ==> IsHeard(after, k, world, inbox)
  }

  ghost predicate Within(rest: seq<Message>, inbox: seq<Message>) {
    forall m :: m in rest ==> m in inbox
  }

  lemma HeardEarlier(mid: seq<Action>, after: seq<Action>, k: int, world: (InstanceId, nat) -> Outcome,
                     inbox: seq<Message>)
    requires mid <= after && 0 <= k < |mid| && IsHeard(mid, k, world, inbox)
    ensures IsHeard(after, k, world, inbox)
  {
    hide IsEpisode;
    if mid[k].Finish? {
      var m :| EndsEpisode(mid, m, k, world);
      assert after[m..k + 1] == mid[m..k + 1] && after[..m] == mid[..m];
      assert EndsEpisode(after, m, k, world);
    }
  }

  lemma HeardJoin(before: seq<Action>, mid: seq<Action>, after: seq<Action>, world: (InstanceId, nat) -> Outcome,
                  inbox: seq<Message>, rest: seq<Message>)
    requires Heard(before, mid, world, inbox) && Heard(mid, after, world, rest) && Within(rest, inbox)
    ensures before <= after && Heard(before, after, world, inbox)
  {
    hide EndsEpisode;
    forall k | |before| <= k < |after|
      ensures IsHeard(after, k, world, inbox)
    {
      if k < |mid| {
        HeardEarlier(mid, after, k, world, inbox);
      } else {
        assert IsHeard(after, k, world, rest);
      }
    }
  }

  predicate IsSilent(a: Action) {
    !a.Finish? && !a.Answer?
  }

  lemma SilentHeard(before: seq<Action>, after: seq<Action>, world: (InstanceId, nat) -> Outcome, inbox: seq<Message>)
    requires before <= after && forall k :: |before| <= k < |after| ==> IsSilent(after[k])
    ensures Heard(before, after, world, inbox)
  {
  }

  lemma EpisodeHeard(before: seq<Action>, after: seq<Action>, i: InstanceId, world: (InstanceId, nat) -> Outcome,
                     inbox: seq<Message>)
    requires before <= after && IsEpisode(Added(before, after), i, world(i, AttemptsOf(before, i)))
    ensures Heard(before, after, world, inbox)
  {
    var added, n := Added(before, after), |world(i, AttemptsOf(before, i)).asks|;
    forall k | |before| <= k < |after|
      ensures IsHeard(after, k, world, inbox)
    {
      assert after[k] == added[k - |before|];
      if k < |after| - 1 {
        assert k - |before| < n ==>
          IsRequest(added[..n][k - |before|], i, world(i, AttemptsOf(before, i)).asks[k - |before|]);
      } else {
        assert after[|before|..k + 1] == added && after[..|before|] == before;
        assert EndsEpisode(after, |before|, k, world);
      }
    }
  }

  // ---------- numbers of attempts ----------

  function AttemptIn(st: State, i: InstanceId): nat {
    if i in st.instances then st.instances[i].attempt else 0
  }

  lemma AttemptStep(st: State, a: Action, i: InstanceId)
    requires Inv(st) && Enabled(st, a)
    ensures AttemptIn(Next(st, a), i) == AttemptIn(st, i) + if a == Begin(i) then 1 else 0
  {
    hide GraphOk, ControlOk, StoreOk, Enabled, Next, InstanceOk;
    if i !in st.instances {
      NewAttempt(st, a, i);
    } else if Sets(a, i) {
      SetAttempt(st, a, i);
    } else {
      OthersStay(st, a, i);
    }
  }

  lemma NewAttempt(st: State, a: Action, i: InstanceId)
    requires Enabled(st, a) && i !in st.instances
    ensures AttemptIn(Next(st, a), i) == 0 && a != Begin(i)
  {
    hide IsCandidate, MergedActivation, Continues, Closed, OwnsScope, Finished, Recovered, Refreshed, MarkFailed,
      Aborted, Retried, Begun, ChildScope;
  }

  lemma SetAttempt(st: State, a: Action, i: InstanceId)
    requires InstancesOk(st) && Enabled(st, a) && i in st.instances && Sets(a, i)
    ensures AttemptIn(Next(st, a), i) == st.instances[i].attempt + if a == Begin(i) then 1 else 0
  {
    hide IsCandidate, MergedActivation, Continues, Closed, OwnsScope, Finished, Recovered, Refreshed, ChildScope,
      InstancesOk;
    if a.Finish? || a.Recover? {
      EndedAttempt(st, a, i);
    } else if a.Refresh? {
      RefreshedAttempt(st, i);
    }
  }

  lemma EndedAttempt(st: State, a: Action, i: InstanceId)
    requires InstancesOk(st) && Enabled(st, a) && (a.Finish? || a.Recover?) && Sets(a, i)
    ensures AttemptIn(Next(st, a), i) == AttemptIn(st, i)
  {
    hide Finished, Recovered, OpenBlocking, DependenciesSatisfied, MissingDecisions, DoneOk;
    assert InstanceOk(st, i);
    if a.Finish? {
      FinishedOk(st, i, a.result, a.dir);
    } else {
      RecoveredOk(st, i, a.runtime, a.dir);
    }
  }

  lemma RefreshedAttempt(st: State, i: InstanceId)
    requires InstancesOk(st) && Enabled(st, Refresh(i))
    ensures AttemptIn(Next(st, Refresh(i)), i) == AttemptIn(st, i)
  {
    hide Refreshed, DependenciesSatisfied, DoneOk;
    assert InstanceOk(st, i);
    RefreshedAllowed(st.tasks[st.instances[i].binding.task], st.instances, st.interrupts, i);
  }

  lemma {:induction false} AttemptsRun(st: State, actions: seq<Action>, st': State, i: InstanceId)
    requires Inv(st) && IsRun(st, actions, st')
    ensures AttemptIn(st', i) == AttemptIn(st, i) + AttemptsOf(actions, i)
    decreases |actions|
  {
    hide Inv, Enabled, Next, AttemptIn;
    if actions != [] {
      AttemptStep(st, actions[0], i);
      StepKeeps(st, actions[0]);
      AttemptsRun(Next(st, actions[0]), actions[1..], st', i);
    }
  }

  // The number of an attempt is how many attempts of the instance the history has begun.
  lemma AttemptIsCount(start: State, history: seq<Action>, st: State, i: InstanceId)
    requires RunOk(start, history, st)
    ensures i in st.instances ==> st.instances[i].attempt == AttemptsOf(history, i)
    ensures i in st.live ==> i in st.instances && st.live[i].attempt == AttemptsOf(history, i)
  {
    hide ValidTasks, IsRun, AttemptsOf, GraphOk, ControlOk, Ordered;
    InitialOk(start.tasks, start.userInputs);
    AttemptsRun(start, history, st, i);
    if i in st.instances {
      assert InstanceOk(st, i);
    }
  }
}
