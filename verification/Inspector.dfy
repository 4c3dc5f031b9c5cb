/** StateInspector: checkpoint diffs and replay (observability/inspector.go), and the patch that a diff is
    for. `render` is the %v formatting that decides whether a variable changed. */
module Inspector {
  import opened Core
  import opened Store

  datatype StateDiff = StateDiff(
    newMessages: seq<Message>,
    changedVars: map<string, Value>,
    newArtifacts: seq<Artifact>)

  function Gained<T>(a: seq<T>, b: seq<T>): seq<T> {
    if |b| > |a| then b[|a|..] else []
  }

  function Diff(a: AgentState, b: AgentState, render: Value -> string): StateDiff {
    StateDiff(
      Gained(a.messages, b.messages),
      map k | k in b.variables && (k !in a.variables || render(a.variables[k]) != render(b.variables[k])) :: b.variables[k],
      Gained(a.artifacts, b.artifacts))
  }

  method DiffCheckpoints(store: InMemoryStore, cpA: nat, cpB: nat, render: Value -> string)
    returns (r: Option<StateDiff>)
    ensures r == if cpA in store.View().data && cpB in store.View().data
                 then Some(Diff(store.View().data[cpA], store.View().data[cpB], render)) else None
  {
    var a := store.LoadCheckpoint(cpA);
    if a == None {
      return None;
    }
    var b := store.LoadCheckpoint(cpB);
    if b == None {
      return None;
    }
    var stateA, stateB := a.value, b.value;
    var newMessages, newArtifacts := [], [];
    if |stateB.messages| > |stateA.messages| {
      newMessages := stateB.messages[|stateA.messages|..];
    }
    var changed: map<string, Value> := map[];
    var left := stateB.variables.Keys;
    while left != {}
      invariant left <= stateB.variables.Keys
      invariant forall k :: k in changed <==>
                              k in stateB.variables && k !in left
                              && (k !in stateA.variables || render(stateA.variables[k]) != render(stateB.variables[k]))
      invariant forall k :: k in changed ==> changed[k] == stateB.variables[k]
      decreases left
    {
      var k :| k in left;
      var vB := stateB.variables[k];
      if k !in stateA.variables || render(stateA.variables[k]) != render(vB) {
        changed := changed[k := vB];
      }
      left := left - {k};
    }
    if |stateB.artifacts| > |stateA.artifacts| {
      newArtifacts := stateB.artifacts[|stateA.artifacts|..];
    }
    assert changed == Diff(stateA, stateB, render).changedVars;
    return Some(StateDiff(newMessages, changed, newArtifacts));
  }

  method ReplayFrom(store: InMemoryStore, checkpointID: nat) returns (r: Option<AgentState>)
    ensures r == if checkpointID in store.View().data
                 then Some(store.View().data[checkpointID].WithStatus(Running)) else None
  {
    var loaded := store.LoadCheckpoint(checkpointID);
    if loaded == None {
      return None;
    }
    return Some(loaded.value.WithStatus(Running));
  }

  // ---- patching ----

  function Patch(a: AgentState, d: StateDiff): AgentState {
    a.(messages := a.messages + d.newMessages,
       variables := a.variables + d.changedVars,
       artifacts := a.artifacts + d.newArtifacts)
  }

  /** The two states agree on everything a diff speaks about. */
  predicate SameContents(a: AgentState, b: AgentState) {
    a.messages == b.messages && a.variables == b.variables && a.artifacts == b.artifacts
  }

  /** `b` grew out of `a`: messages and artifacts appended, no variable removed. */
  predicate Extends(a: AgentState, b: AgentState) {
    a.messages <= b.messages && a.artifacts <= b.artifacts && a.variables.Keys <= b.variables.Keys
  }

  /** Where a and b render a variable alike, they hold the same value. */
  predicate RenderedFaithfully(a: AgentState, b: AgentState, render: Value -> string) {
    forall k :: k in a.variables && k in b.variables && render(a.variables[k]) == render(b.variables[k]) ==>
      a.variables[k] == b.variables[k]
  }

  lemma GainedRestores<T>(a: seq<T>, b: seq<T>)
    ensures a + Gained(a, b) == b <==> a <= b
    ensures |Gained(a, b)| == if |b| > |a| then |b| - |a| else 0
    ensures b[|b| - |Gained(a, b)|..] == Gained(a, b)
  {
    if a + Gained(a, b) == b {
      assert a == (a + Gained(a, b))[..|a|];
    }
  }

  /** Patching a with the diff to b restores b's contents exactly when b extends a and rendering tells the
      changed variables apart. */
  lemma PatchRestoresIff(a: AgentState, b: AgentState, render: Value -> string)
    ensures SameContents(Patch(a, Diff(a, b, render)), b) <==> Extends(a, b) && RenderedFaithfully(a, b, render)
  {
    GainedRestores(a.messages, b.messages);
    GainedRestores(a.artifacts, b.artifacts);
    var v := a.variables + Diff(a, b, render).changedVars;
    if v == b.variables {
      assert forall k :: k in a.variables ==> k in v;
      forall k | k in a.variables && k in b.variables && render(a.variables[k]) == render(b.variables[k])
        ensures a.variables[k] == b.variables[k]
      {
        assert v[k] == a.variables[k];
      }
    }
    if Extends(a, b) && RenderedFaithfully(a, b, render) {
      assert v.Keys == b.variables.Keys;
    }
  }

  /** A diff lists no variable that renders alike in both states, none that b lacks, and nothing that could be
      left out: any diff that patches a to b lists at least those variables, with b's values. */
  lemma DiffIsMinimal(a: AgentState, b: AgentState, render: Value -> string, d: StateDiff)
    ensures forall k :: k in Diff(a, b, render).changedVars ==>
              k in b.variables && (k !in a.variables || render(a.variables[k]) != render(b.variables[k]))
    ensures SameContents(Patch(a, d), b) ==>
              && d.newMessages == Diff(a, b, render).newMessages && d.newArtifacts == Diff(a, b, render).newArtifacts
              && forall k :: k in Diff(a, b, render).changedVars ==>
                   k in d.changedVars && d.changedVars[k] == Diff(a, b, render).changedVars[k]
  {
    if SameContents(Patch(a, d), b) {
      assert b.messages[|a.messages|..] == d.newMessages && b.artifacts[|a.artifacts|..] == d.newArtifacts;
      forall k | k in Diff(a, b, render).changedVars
        ensures k in d.changedVars && d.changedVars[k] == Diff(a, b, render).changedVars[k]
      {
        assert k in a.variables + d.changedVars;
      }
    }
  }

  function Compose(d: StateDiff, e: StateDiff): StateDiff {
    StateDiff(d.newMessages + e.newMessages, d.changedVars + e.changedVars, d.newArtifacts + e.newArtifacts)
  }

  lemma ExtendsTransitive(a: AgentState, b: AgentState, c: AgentState)
    requires Extends(a, b) && Extends(b, c)
    ensures Extends(a, c)
  {
    assert b.messages == c.messages[..|b.messages|];
    assert b.artifacts == c.artifacts[..|b.artifacts|];
  }

  /** Composed diffs patch like the two diffs in turn. */
  lemma PatchCompose(a: AgentState, d: StateDiff, e: StateDiff)
    ensures SameContents(Patch(a, Compose(d, e)), Patch(Patch(a, d), e))
  {
    assert a.messages + (d.newMessages + e.newMessages) == (a.messages + d.newMessages) + e.newMessages;
    assert a.artifacts + (d.newArtifacts + e.newArtifacts) == (a.artifacts + d.newArtifacts) + e.newArtifacts;
    assert a.variables + (d.changedVars + e.changedVars) == (a.variables + d.changedVars) + e.changedVars;
  }

  /** Diffs compose along a chain: where rendering tells the changed variables of each link apart, the
      composed diff patches a to c; the direct diff does so exactly when rendering tells those from a to c
      apart. */
  lemma DiffsCompose(a: AgentState, b: AgentState, c: AgentState, render: Value -> string)
    requires Extends(a, b) && Extends(b, c)
    ensures RenderedFaithfully(a, b, render) && RenderedFaithfully(b, c, render) ==>
              SameContents(Patch(a, Compose(Diff(a, b, render), Diff(b, c, render))), c)
    ensures SameContents(Patch(a, Diff(a, c, render)), c) <==> RenderedFaithfully(a, c, render)
  {
    ExtendsTransitive(a, b, c);
    PatchRestoresIff(a, b, render);
    PatchRestoresIff(b, c, render);
    PatchRestoresIff(a, c, render);
    PatchCompose(a, Diff(a, b, render), Diff(b, c, render));
  }

  // ---- states built with the With* helpers only ----

  datatype Edit = AddMessage(m: Message) | SetVariable(key: string, val: Value) | SetStatus(s: Status)

  function EditOnce(st: AgentState, e: Edit): AgentState {
    match e
    case AddMessage(m) => st.WithMessage(m)
    case SetVariable(key, val) => st.WithVariable(key, val)
    case SetStatus(s) => st.WithStatus(s)
  }

  function Edited(st: AgentState, edits: seq<Edit>): AgentState {
    if edits == [] then st else EditOnce(Edited(st, edits[..|edits| - 1]), edits[|edits| - 1])
  }

  lemma {:induction false} EditedExtends(st: AgentState, edits: seq<Edit>)
    ensures Extends(st, Edited(st, edits))
    ensures Edited(st, edits).artifacts == st.artifacts
  {
    if edits != [] {
      EditedExtends(st, edits[..|edits| - 1]);
      ExtendsTransitive(st, Edited(st, edits[..|edits| - 1]), Edited(st, edits));
    }
  }
}
