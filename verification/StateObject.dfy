/** core/agent_state.go on the heap: snapshots whose messages, artifacts and variables are mutable storage,
    copied by clone so that no snapshot shares any with another. */
module StateObject {
  import opened Core
  import opened Inspector

  /** A Go map: a reference to mutable entries. */
  class Table {
    var entries: map<string, Value>

    constructor ()
      ensures entries == map[]
    {
      entries := map[];
    }
  }

  method Copied<T(0)>(src: array<T>) returns (dst: array<T>)
    ensures fresh(dst) && dst[..] == src[..]
  {
    dst := new T[src.Length];
    for i := 0 to src.Length
      invariant dst[..i] == src[..i]
    {
      dst[i] := src[i];
    }
  }

  method CopiedTable(src: Table) returns (dst: Table)
    ensures fresh(dst) && dst.entries == src.entries
  {
    dst := new Table();
    var left := src.entries.Keys;
    while left != {}
      invariant left <= src.entries.Keys
      invariant dst.entries.Keys == src.entries.Keys - left
      invariant forall k :: k in dst.entries ==> dst.entries[k] == src.entries[k]
      decreases left
    {
      var k :| k in left;
      dst.entries := dst.entries[k := src.entries[k]];
      left := left - {k};
    }
  }

  /** append on a full slice: a longer copy. */
  method Appended<T(0)>(src: array<T>, x: T) returns (dst: array<T>)
    ensures fresh(dst) && dst[..] == src[..] + [x]
  {
    dst := new T[src.Length + 1];
    for i := 0 to src.Length
      invariant dst[..i] == src[..i]
    {
      dst[i] := src[i];
    }
    dst[src.Length] := x;
  }

  class Snapshot {
    var messages: array<Message>
    var variables: Table
    var artifacts: array<Artifact>
    var stepCount: int
    var retryCount: int
    var lastNodeID: string
    var status: Status
    var checkpointID: string
    var taskID: string
    var contextID: string

    ghost function Repr(): set<object>
      reads this
    {
      {this, messages, variables, artifacts}
    }

    ghost function View(): AgentState
      reads this, Repr()
    {
      AgentState(messages[..], variables.entries, artifacts[..], stepCount, retryCount, lastNodeID, status,
                 checkpointID, taskID, contextID)
    }

    /** NewState. */
    constructor ()
      ensures View() == NEW_STATE
      ensures fresh(Repr())
    {
      var noMessages := new Message[0];
      var noArtifacts := new Artifact[0];
      var noVariables := new Table();
      messages, variables, artifacts := noMessages, noVariables, noArtifacts;
      stepCount, retryCount, lastNodeID, status := 0, 0, "", Running;
      checkpointID, taskID, contextID := "", "", "";
    }

    /** The scalar fields of `s` around the given storage. */
    constructor Around(s: Snapshot, messages: array<Message>, variables: Table, artifacts: array<Artifact>)
      ensures this.messages == messages && this.variables == variables && this.artifacts == artifacts
      ensures View() == s.View().(messages := messages[..], variables := variables.entries, artifacts := artifacts[..])
    {
      this.messages, this.variables, this.artifacts := messages, variables, artifacts;
      stepCount, retryCount, lastNodeID, status := s.stepCount, s.retryCount, s.lastNodeID, s.status;
      checkpointID, taskID, contextID := s.checkpointID, s.taskID, s.contextID;
    }

    method Clone() returns (ns: Snapshot)
      ensures fresh(ns.Repr())
      ensures ns.View() == View()
    {
      var messagesCopy := Copied(messages);
      var variablesCopy := CopiedTable(variables);
      var artifactsCopy := Copied(artifacts);
      ns := new Snapshot.Around(this, messagesCopy, variablesCopy, artifactsCopy);
    }

    method WithMessage(m: Message) returns (ns: Snapshot)
      ensures fresh(ns.Repr())
      ensures ns.View() == View().WithMessage(m)
    {
      ns := Clone();
      ns.messages := Appended(ns.messages, m);
    }

    method WithVariable(key: string, val: Value) returns (ns: Snapshot)
      ensures fresh(ns.Repr())
      ensures ns.View() == View().WithVariable(key, val)
    {
      ns := Clone();
      ns.variables.entries := ns.variables.entries[key := val];
    }

    method WithStatus(s: Status) returns (ns: Snapshot)
      ensures fresh(ns.Repr())
      ensures ns.View() == View().WithStatus(s)
    {
      ns := Clone();
      ns.status := s;
    }

    method With(e: Edit) returns (ns: Snapshot)
      ensures fresh(ns.Repr())
      ensures ns.View() == EditOnce(View(), e)
    {
      match e
      case AddMessage(m) => ns := WithMessage(m);
      case SetVariable(key, val) => ns := WithVariable(key, val);
      case SetStatus(s) => ns := WithStatus(s);
    }
  }

  /** No two snapshots share storage. */
  ghost predicate Separate(snapshots: seq<Snapshot>)
    reads set i | 0 <= i < |snapshots| :: snapshots[i]
  {
    forall i, j :: 0 <= i < j < |snapshots| ==> snapshots[i].Repr() !! snapshots[j].Repr()
  }

  /** The snapshots show, in order, these states. */
  ghost predicate Show(snapshots: seq<Snapshot>, states: seq<AgentState>)
    reads set i | 0 <= i < |snapshots| :: snapshots[i]
    reads set i, o | 0 <= i < |snapshots| && o in snapshots[i].Repr() :: o
  {
    |snapshots| == |states| && forall i :: 0 <= i < |snapshots| ==> snapshots[i].View() == states[i]
  }

  function Versions(st: AgentState, edits: seq<Edit>): (r: seq<AgentState>)
    ensures |r| == |edits| + 1
    ensures r[|edits|] == Edited(st, edits)
  {
    if edits == [] then [st] else Versions(st, edits[..|edits| - 1]) + [Edited(st, edits)]
  }

  lemma ShowSnoc(chain: seq<Snapshot>, states: seq<AgentState>, next: Snapshot)
    requires Show(chain, states)
    ensures Show(chain + [next], states + [next.View()])
  {
  }

  lemma SeparateSnoc(chain: seq<Snapshot>, next: Snapshot)
    requires Separate(chain) && forall i :: 0 <= i < |chain| ==> chain[i].Repr() !! next.Repr()
    ensures Separate(chain + [next])
  {
  }

  /** A chain of With* calls. Every snapshot along the chain still shows exactly its own version when the
      chain is complete, and no later one can be used to disturb it. */
  method Derive(s: Snapshot, edits: seq<Edit>) returns (chain: seq<Snapshot>)
    ensures |chain| == |edits| + 1 && chain[0] == s
    ensures Show(chain, Versions(old(s.View()), edits))
    ensures Separate(chain)
    decreases |edits|
  {
    if edits == [] {
      return [s];
    }
    var n := |edits| - 1;
    chain := Derive(s, edits[..n]);
    var next := chain[n].With(edits[n]);
    ShowSnoc(chain, Versions(old(s.View()), edits[..n]), next);
    SeparateSnoc(chain, next);
    chain := chain + [next];
  }
}
