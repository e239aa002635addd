// How a prompt looks up an input, against what the scheduler materialises for the scope.
module Composer {
  import opened Domain
  import opened TaskGraph
  import opened InstanceGraph
  import opened RunState
  import opened Invariants
  import opened RunTheorems

  // Scope values first, then the inputs of the run.
  predicate HasInputValue(st: State, s: ScopeId, key: string)
    requires s in st.scopes
  {
    key in st.scopes[s].values || key in st.userInputs
  }

  function ResolveInputValue(st: State, s: ScopeId, key: string): Option<Json>
    requires s in st.scopes
  {
    if key in st.scopes[s].values then Some(st.scopes[s].values[key])
    else if key in st.userInputs then Some(st.userInputs[key])
    else None
  }

  // What the scheduler fills into the templates of a scope.
  function InputsForScope(st: State, s: ScopeId): map<string, Json>
    requires s in st.scopes
  {
    st.userInputs + st.scopes[s].values
  }

  // The inputs of a scope are the user inputs overlaid by what each iteration on the path to it
  // added, and the composer finds exactly those.
  lemma InputsAgree(st: State, s: ScopeId, key: string)
    requires Reachable(st) && s in st.scopes
    ensures GraphOk(st) && ControlOk(st)
    ensures InputsForScope(st, s) == st.userInputs + PathInputs(st, s)
    ensures HasInputValue(st, s, key) <==> key in InputsForScope(st, s)
    ensures ResolveInputValue(st, s, key) == if key in InputsForScope(st, s) then Some(InputsForScope(st, s)[key])
      else None
  {
    hide Reachable, Inv, InstancesOk, StoreOk, ControlOk, ScopesOk, WellFormed, ValidTasks, PathInputs;
    ReachableOk(st);
    InvParts(st);
    ScopeHoldsPathInputs(st, s);
  }
}
