// The control object a controller writes: what is accepted, and what the scheduler then reads.
module ControlEnvelope {
  import opened Domain
  import opened TaskGraph

  datatype ControlKind = RouteKind | LoopKind

  datatype LoopAction = Continue | Stop

  // A dictionary in insertion order.
  type Dict = seq<(string, Json)>

  datatype Control = Control(kind: ControlKind, labels: seq<string>, action: Option<LoopAction>, nextInputs: Dict)

  // A parsed result document; control is None when the document holds no readable control object.
  datatype Payload = Payload(control: Option<Control>)

  // ---------- blanks ----------

  // The characters that the source's strip() removes.
  predicate IsBlank(c: char) {
    var n := c as int;
    9 <= n <= 13 || 28 <= n <= 32 || n == 0x85 || n == 0xA0 || n == 0x1680 || 0x2000 <= n <= 0x200A ||
    n == 0x2028 || n == 0x2029 || n == 0x202F || n == 0x205F || n == 0x3000
  }

  function StripLeft(s: string): string {
    if s != "" && IsBlank(s[0]) then StripLeft(s[1..]) else s
  }

  function StripRight(s: string): string {
    if s != "" && IsBlank(s[|s| - 1]) then StripRight(s[..|s| - 1]) else s
  }

  function Strip(s: string): string {
    StripRight(StripLeft(s))
  }

  lemma {:induction false} StripLeftTight(s: string)
    ensures StripLeft(s) != "" ==> !IsBlank(StripLeft(s)[0])
  {
    if s != "" && IsBlank(s[0]) {
      StripLeftTight(s[1..]);
    }
  }

  lemma {:induction false} StripRightTight(s: string)
    ensures StripRight(s) <= s
    ensures StripRight(s) != "" ==> !IsBlank(StripRight(s)[|StripRight(s)| - 1])
  {
    if s != "" && IsBlank(s[|s| - 1]) {
      StripRightTight(s[..|s| - 1]);
    }
  }

  // Strip cuts off exactly the blanks at both ends.
  lemma StripCuts(s: string) returns (i: nat, j: nat)
    ensures i <= j <= |s| && Strip(s) == s[i..j]
    ensures (forall k :: 0 <= k < i ==> IsBlank(s[k])) && forall k :: j <= k < |s| ==> IsBlank(s[k])
    ensures i < j ==> !IsBlank(s[i]) && !IsBlank(s[j - 1])
  {
    i := CutLeft(s);
    var left := CutRight(s[i..]);
    j := i + left;
    StripLeftTight(s);
    StripRightTight(StripLeft(s));
    assert s[i..][..j - i] == s[i..j];
    assert forall k :: j <= k < |s| ==> s[i..][k - i] == s[k];
  }

  lemma {:induction false} CutLeft(s: string) returns (i: nat)
    ensures i <= |s| && StripLeft(s) == s[i..] && forall k :: 0 <= k < i ==> IsBlank(s[k])
  {
    i := 0;
    if s != "" && IsBlank(s[0]) {
      var rest := CutLeft(s[1..]);
      i := rest + 1;
      assert s[1..][rest..] == s[i..];
      assert forall k :: 0 < k < i ==> s[k] == s[1..][k - 1];
    }
  }

  lemma {:induction false} CutRight(s: string) returns (j: nat)
    ensures j <= |s| && StripRight(s) == s[..j] && forall k :: j <= k < |s| ==> IsBlank(s[k])
  {
    j := |s|;
    if s != "" && IsBlank(s[|s| - 1]) {
      var init := s[..|s| - 1];
      j := CutRight(init);
      assert init[..j] == s[..j];
      assert forall k :: j <= k < |init| ==> s[k] == init[k];
    } else {
      assert s[..j] == s;
    }
  }

  // A stripped string has nothing left to strip.
  lemma StripIdempotent(s: string)
    ensures Strip(Strip(s)) == Strip(s)
  {
    StripLeftTight(s);
    StripRightTight(StripLeft(s));
    assert StripLeft(Strip(s)) == Strip(s);
    assert StripRight(Strip(s)) == Strip(s);
  }

  // ---------- dictionaries ----------

  function KeysOf(d: Dict): set<string> {
    set k | 0 <= k < |d| :: d[k].0
  }

  // Assignment to a key keeps the place of a key already there.
  function Put(d: Dict, key: string, value: Json): Dict {
    if d == [] then [(key, value)]
    else if d[0].0 == key then [(key, value)] + d[1..]
    else [d[0]] + Put(d[1..], key, value)
  }

  function AsMap(d: Dict): map<string, Json> {
    if d == [] then map[] else AsMap(d[..|d| - 1])[d[|d| - 1].0 := d[|d| - 1].1]
  }

  // Keys stripped, later entries replacing earlier ones; None when a key is blank.
  function Normalized(d: Dict): Option<Dict> {
    if d == [] then Some([]) else
      var last := d[|d| - 1];
      match Normalized(d[..|d| - 1])
      case None => None
      case Some(n) => if Strip(last.0) == "" then None else Some(Put(n, Strip(last.0), last.1))
  }

  ghost predicate Tidy(d: Dict) {
    (forall j, k :: 0 <= j < k < |d| ==> d[j].0 != d[k].0) &&
    forall k :: 0 <= k < |d| ==> Strip(d[k].0) == d[k].0 && d[k].0 != ""
  }

  lemma {:induction false} PutKeys(d: Dict, key: string, value: Json)
    ensures KeysOf(Put(d, key, value)) == KeysOf(d) + {key}
  {
    var r := Put(d, key, value);
    if d == [] {
      assert r[0].0 == key;
    } else if d[0].0 == key {
      assert forall k :: 0 < k < |d| ==> r[k] == d[k];
      assert r[0].0 == key && d[0].0 == key;
    } else {
      PutKeys(d[1..], key, value);
      assert KeysOf(d) == {d[0].0} + KeysOf(d[1..]) by { KeysOfHead(d); }
      assert KeysOf(r) == {r[0].0} + KeysOf(r[1..]) by { KeysOfHead(r); }
      assert r[1..] == Put(d[1..], key, value);
    }
  }

  lemma KeysOfHead(d: Dict)
    requires d != []
    ensures KeysOf(d) == {d[0].0} + KeysOf(d[1..])
  {
    assert forall k :: 0 <= k < |d| - 1 ==> d[1..][k] == d[k + 1];
    forall x | x in KeysOf(d)
      ensures x in {d[0].0} + KeysOf(d[1..])
    {
      var k :| 0 <= k < |d| && d[k].0 == x;
      if k > 0 {
        assert d[1..][k - 1].0 == x;
      }
    }
  }

  lemma {:induction false} PutTidy(d: Dict, key: string, value: Json)
    requires Tidy(d) && Strip(key) == key && key != ""
    ensures Tidy(Put(d, key, value))
  {
    var r := Put(d, key, value);
    if d != [] {
      assert forall k :: 0 <= k < |d| - 1 ==> d[1..][k] == d[k + 1];
      if d[0].0 != key {
        PutTidy(d[1..], key, value);
        PutKeys(d[1..], key, value);
        assert r[1..] == Put(d[1..], key, value);
        forall k | 0 < k < |r|
          ensures r[k].0 != r[0].0
        {
          assert r[1..][k - 1].0 in KeysOf(r[1..]);
        }
        assert forall k :: 0 < k < |r| ==> r[k] == r[1..][k - 1];
      }
    }
  }

  lemma {:induction false} NormalizedTidy(d: Dict)
    ensures Normalized(d).Some? ==> Tidy(Normalized(d).value)
    ensures Normalized(d).Some? <==> forall k :: 0 <= k < |d| ==> Strip(d[k].0) != ""
  {
    if d != [] {
      NormalizedTidy(d[..|d| - 1]);
      if Normalized(d).Some? {
        StripIdempotent(d[|d| - 1].0);
        PutTidy(Normalized(d[..|d| - 1]).value, Strip(d[|d| - 1].0), d[|d| - 1].1);
      }
    }
  }

  lemma {:induction false} PutFresh(d: Dict, key: string, value: Json)
    requires key !in KeysOf(d)
    ensures Put(d, key, value) == d + [(key, value)]
  {
    if d != [] {
      KeysOfHead(d);
      PutFresh(d[1..], key, value);
    }
  }

  // A tidy dictionary is its own normal form.
  lemma {:induction false} TidyIsNormal(d: Dict)
    requires Tidy(d)
    ensures Normalized(d) == Some(d)
  {
    if d != [] {
      var init := d[..|d| - 1];
      TidyIsNormal(init);
      assert d[|d| - 1].0 !in KeysOf(init);
      PutFresh(init, d[|d| - 1].0, d[|d| - 1].1);
      assert d == init + [d[|d| - 1]];
    }
  }

  // ---------- what a dictionary holds ----------

  // Entry j is the last one with this key.
  ghost predicate IsLast(d: Dict, key: string, j: int) {
    0 <= j < |d| && d[j].0 == key && forall k :: j < k < |d| ==> d[k].0 != key
  }

  ghost predicate IsFirst(d: Dict, key: string, j: int) {
    0 <= j < |d| && d[j].0 == key && forall k :: 0 <= k < j ==> d[k].0 != key
  }

  // As a map a dictionary has its keys, each with the last value given for it.
  lemma {:induction false} AsMapHolds(d: Dict)
    ensures AsMap(d).Keys == KeysOf(d)
    ensures forall key, j :: IsLast(d, key, j) ==> AsMap(d)[key] == d[j].1
  {
    if d != [] {
      var init, last := d[..|d| - 1], d[|d| - 1];
      AsMapHolds(init);
      assert KeysOf(d) == KeysOf(init) + {last.0} by {
        assert forall k :: 0 <= k < |d| - 1 ==> init[k] == d[k];
        assert d[|d| - 1].0 in KeysOf(d);
        assert forall k :: 0 <= k < |d| - 1 ==> d[k].0 in KeysOf(d);
      }
      forall key, j | IsLast(d, key, j)
        ensures AsMap(d)[key] == d[j].1
      {
        if j < |d| - 1 {
          assert IsLast(init, key, j);
        }
      }
    }
  }

  // m has the keys of d and each of its entries.
  ghost predicate Holds(m: map<string, Json>, d: Dict) {
    m.Keys == KeysOf(d) && forall k :: 0 <= k < |d| ==> d[k].0 in m && m[d[k].0] == d[k].1
  }

  // A dictionary without repeated keys holds each of its entries, and nothing else.
  lemma TidyHolds(d: Dict)
    requires Tidy(d)
    ensures Holds(AsMap(d), d)
  {
    AsMapHolds(d);
    forall k | 0 <= k < |d|
      ensures d[k].0 in AsMap(d) && AsMap(d)[d[k].0] == d[k].1
    {
      assert IsLast(d, d[k].0, k);
    }
  }

  lemma HoldsSame(m: map<string, Json>, m': map<string, Json>, d: Dict)
    requires Holds(m, d) && Holds(m', d)
    ensures m == m'
  {
    forall x | x in m
      ensures m[x] == m'[x]
    {
      var k :| 0 <= k < |d| && d[k].0 == x;
    }
  }

  // A key keeps the place it first got, with the new value; a new key comes last.
  lemma {:induction false} PutPlaces(d: Dict, key: string, value: Json)
    ensures key !in KeysOf(d) ==> Put(d, key, value) == d + [(key, value)]
    ensures forall j :: IsFirst(d, key, j) ==> Put(d, key, value) == d[j := (key, value)]
  {
    if key !in KeysOf(d) {
      PutFresh(d, key, value);
    }
    if d != [] {
      PutPlaces(d[1..], key, value);
      forall j | IsFirst(d, key, j)
        ensures Put(d, key, value) == d[j := (key, value)]
      {
        if j > 0 {
          assert d[1..][j - 1] == d[j];
          assert IsFirst(d[1..], key, j - 1);
          assert [d[0]] + d[1..][j - 1 := (key, value)] == d[j := (key, value)];
        } else {
          assert [(key, value)] + d[1..] == d[0 := (key, value)];
        }
      }
    }
  }

  // Assignment to a key is assignment in the map.
  lemma PutAssigns(d: Dict, key: string, value: Json)
    requires Tidy(d) && Strip(key) == key && key != ""
    ensures AsMap(Put(d, key, value)) == AsMap(d)[key := value]
  {
    hide AsMap, Put, Strip, KeysOf, Holds;
    var r := Put(d, key, value);
    PutTidy(d, key, value);
    PutKeys(d, key, value);
    PutPlaces(d, key, value);
    TidyHolds(d);
    TidyHolds(r);
    if key in KeysOf(d) {
      var j := KeyPlace(d, key);
      HoldsChanged(AsMap(d), d, key, value, j);
    } else {
      HoldsAppended(AsMap(d), d, key, value);
    }
    HoldsSame(AsMap(r), AsMap(d)[key := value], r);
  }

  lemma KeyPlace(d: Dict, key: string) returns (j: nat)
    requires Tidy(d) && key in KeysOf(d)
    ensures IsFirst(d, key, j) && forall k :: 0 <= k < |d| && k != j ==> d[k].0 != key
  {
    j :| 0 <= j < |d| && d[j].0 == key;
  }

  lemma HoldsChanged(m: map<string, Json>, d: Dict, key: string, value: Json, j: nat)
    requires Holds(m, d) && IsFirst(d, key, j) && forall k :: 0 <= k < |d| && k != j ==> d[k].0 != key
    requires KeysOf(d[j := (key, value)]) == KeysOf(d) + {key}
    ensures Holds(m[key := value], d[j := (key, value)])
  {
  }

  lemma HoldsAppended(m: map<string, Json>, d: Dict, key: string, value: Json)
    requires Holds(m, d) && key !in KeysOf(d) && KeysOf(d + [(key, value)]) == KeysOf(d) + {key}
    ensures Holds(m[key := value], d + [(key, value)])
  {
    assert forall k :: 0 <= k < |d| ==> d[k].0 in KeysOf(d);
  }

  // Entry j is the last one whose key, stripped, is this.
  ghost predicate IsLastStripped(d: Dict, key: string, j: int) {
    0 <= j < |d| && Strip(d[j].0) == key && forall k :: j < k < |d| ==> Strip(d[k].0) != key
  }

  // m holds the stripped keys of d, each with the last value given for it.
  ghost predicate HoldsStripped(m: map<string, Json>, d: Dict) {
    (forall k :: 0 <= k < |d| ==> Strip(d[k].0) in m) &&
    (forall key :: key in m ==> exists j :: IsLastStripped(d, key, j)) &&
    forall key, j :: key in m && IsLastStripped(d, key, j) ==> m[key] == d[j].1
  }

  // Accepted inputs hold the stripped keys of what was written, each with the last value given for it.
  lemma {:induction false} NormalizedHolds(d: Dict)
    requires Normalized(d).Some?
    ensures HoldsStripped(AsMap(Normalized(d).value), d)
  {
    if d != [] {
      var init, last := d[..|d| - 1], d[|d| - 1];
      NormalizedHolds(init);
      NormalizedTidy(init);
      StripIdempotent(last.0);
      PutAssigns(Normalized(init).value, Strip(last.0), last.1);
      HoldsOneMore(AsMap(Normalized(init).value), d);
    }
  }

  lemma HoldsOneMore(m: map<string, Json>, d: Dict)
    requires d != [] && HoldsStripped(m, d[..|d| - 1])
    ensures HoldsStripped(m[Strip(d[|d| - 1].0) := d[|d| - 1].1], d)
  {
    hide Strip;
    var init, last := d[..|d| - 1], d[|d| - 1];
    var m' := m[Strip(last.0) := last.1];
    forall key | key in m'
      ensures exists j :: IsLastStripped(d, key, j)
    {
      if key == Strip(last.0) {
        assert IsLastStripped(d, key, |d| - 1);
      } else {
        var j :| IsLastStripped(init, key, j);
        assert IsLastStripped(d, key, j);
      }
    }
    forall key, j | key in m' && IsLastStripped(d, key, j)
      ensures m'[key] == d[j].1
    {
      if j < |d| - 1 {
        assert IsLastStripped(init, key, j);
      }
    }
  }

  // ---------- acceptance ----------

  // What the envelope's own validation returns; None when it raises.
  function Validated(c: Control): Option<Control> {
    if c.kind == RouteKind then
      if c.action.None? && c.nextInputs == [] && forall k :: 0 <= k < |c.labels| ==> Strip(c.labels[k]) != ""
      then Some(c) else None
    else if c.labels != [] || c.action.None? then None
    else
      match Normalized(c.nextInputs)
      case None => None
      case Some(n) =>
        if (c.action == Some(Continue)) == (n == []) then None
        else Some(c.(nextInputs := n))
  }

  // Validation against the declared control of the task.
  predicate FitsTask(c: Control, task: Task) {
    match task.control
    case None => false
    case Some(RouteMode(routes)) =>
      c.kind == RouteKind && forall l :: l in c.labels ==> exists k :: 0 <= k < |routes| && routes[k].name == l
    case Some(LoopMode(_, _)) => c.kind == LoopKind
  }

  // The control the scheduler reads from a stored result.
  function ControlFor(task: Task, payload: Payload): Option<Control> {
    if payload.control.None? then None else
      match Validated(payload.control.value)
      case None => None
      case Some(c) => if FitsTask(c, task) then Some(c) else None
  }

  // What a controller has to write for its result to be accepted, and what then is read from it.
  lemma AcceptedIff(task: Task, payload: Payload)
    ensures ControlFor(task, payload).Some? <==> payload.control.Some? && MayEmit(task, payload.control.value)
    ensures ControlFor(task, payload).Some? ==>
      var written, read := payload.control.value, ControlFor(task, payload).value;
      read == written.(nextInputs := read.nextInputs) && Tidy(read.nextInputs) &&
      HoldsStripped(AsMap(read.nextInputs), written.nextInputs)
  {
    hide Normalized, AsMap, Tidy, HoldsStripped, Strip;
    if payload.control.Some? {
      var inputs := payload.control.value.nextInputs;
      NormalizedTidy(inputs);
      if Normalized(inputs).Some? {
        NormalizedHolds(inputs);
        NormalizedEmpty(inputs);
      }
      EmptyIsNormal();
      var action := payload.control.value.action;
      assert action.Some? ==> action.value.Continue? || action.value.Stop?;
    }
  }

  lemma EmptyIsNormal()
    ensures Normalized([]) == Some([]) && Tidy([]) && HoldsStripped(AsMap([]), [])
  {
  }

  // Any number of declared labels; or stop; or continue with inputs under keys that are not blank.
  ghost predicate MayEmit(task: Task, c: Control) {
    match task.control
    case None => false
    case Some(RouteMode(routes)) =>
      c.kind == RouteKind && c.action == None && c.nextInputs == [] &&
      (forall k :: 0 <= k < |c.labels| ==> Strip(c.labels[k]) != "") &&
      forall l :: l in c.labels ==> exists r :: 0 <= r < |routes| && routes[r].name == l
    case Some(LoopMode(_, _)) =>
      c.kind == LoopKind && c.labels == [] &&
      ((c.action == Some(Stop) && c.nextInputs == []) ||
       (c.action == Some(Continue) && c.nextInputs != [] &&
        forall k :: 0 <= k < |c.nextInputs| ==> Strip(c.nextInputs[k].0) != ""))
  }

  lemma NormalizedEmpty(d: Dict)
    requires Normalized(d).Some?
    ensures Normalized(d).value == [] <==> d == []
  {
    NormalizedHolds(d);
    if d != [] {
      assert Strip(d[0].0) in AsMap(Normalized(d).value);
    }
  }

  // Validation is a projection: an accepted envelope is accepted again, unchanged.
  lemma ValidatedIdempotent(c: Control)
    ensures Validated(c).Some? ==> Validated(Validated(c).value) == Validated(c)
  {
    if Validated(c).Some? && c.kind == LoopKind {
      NormalizedTidy(c.nextInputs);
      TidyIsNormal(Normalized(c.nextInputs).value);
    }
  }

  // An accepted continue carries inputs and an accepted stop carries none.
  lemma AcceptedShape(task: Task, payload: Payload, c: Control)
    requires ControlFor(task, payload) == Some(c)
    ensures c.action == Some(Continue) ==> c.nextInputs != [] && c.kind == LoopKind
    ensures c.action == Some(Stop) ==> c.nextInputs == [] && c.kind == LoopKind
    ensures c.kind == RouteKind ==> c.action == None
    ensures c.kind == LoopKind ==> c.action.Some?
  {
  }

  method ValidateControl(c: Control) returns (r: Option<Control>)
    ensures r == Validated(c)
  {
    if c.kind == RouteKind {
      if c.action.Some? || c.nextInputs != [] {
        return None;
      }
      var labels: seq<string> := [];
      for k := 0 to |c.labels|
        invariant labels == c.labels[..k]
        invariant forall j :: 0 <= j < k ==> Strip(c.labels[j]) != ""
      {
        if Strip(c.labels[k]) == "" {
          return None;
        }
        labels := labels + [c.labels[k]];
      }
      assert labels == c.labels;
      return Some(c.(labels := labels));
    }
    if c.labels != [] || c.action.None? {
      return None;
    }
    var inputs: Dict := [];
    for k := 0 to |c.nextInputs|
      invariant Normalized(c.nextInputs[..k]) == Some(inputs)
    {
      var (key, value) := c.nextInputs[k];
      assert c.nextInputs[..k + 1][..k] == c.nextInputs[..k];
      if Strip(key) == "" {
        NormalizedTidy(c.nextInputs);
        assert Strip(c.nextInputs[k].0) == "";
        return None;
      }
      inputs := Put(inputs, Strip(key), value);
    }
    assert c.nextInputs[..|c.nextInputs|] == c.nextInputs;
    if c.action == Some(Continue) {
      if inputs == [] {
        return None;
      }
    } else if inputs != [] {
      return None;
    }
    return Some(c.(nextInputs := inputs));
  }
}
