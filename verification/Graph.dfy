/** Graph topology and its builder (graph/graph.go, graph/builder.go, interfaces/node.go).
    A node's behaviour and a router are total functions of the oracle clock and the state they are given:
    the clock counts every question put to a node or a router, so a value of these types is an arbitrary,
    possibly non-deterministic, behaviour. */
module Graphs {
  import opened Core
  import opened Retry

  datatype Interrupt = Interrupt(payload: map<string, Value>, resumeKey: string)

  /** What Process returns beside its error; `NilReply` is a nil *NodeResult. */
  datatype Reply =
    | NilReply
    | Reply(state: Option<AgentState>, nextNodes: seq<string>, interrupt: Option<Interrupt>)

  datatype Node = Node(id: string, process: (nat, AgentState) -> Attempt<Reply>)

  datatype Edge = Edge(fromID: string, toID: string, isCond: bool, router: (nat, AgentState) -> Attempt<string>)

  datatype Graph = Graph(nodes: map<string, Node>, edges: seq<Edge>, entry: string, terminals: set<string>)

  datatype BuildError =
    | EntryNotSet
    | EntryMissing(id: string)
    | EdgeFromMissing(id: string)
    | EdgeToMissing(id: string)
    | TerminalMissing(id: string)

  datatype BuildResult = Built(g: Graph) | Rejected(error: BuildError)

  predicate EdgeOk(nodes: map<string, Node>, e: Edge) {
    e.fromID in nodes && (!e.isCond ==> e.toID in nodes)
  }

  /** What Build promises of a graph: every reference in it is to a registered node. */
  ghost predicate WellFormed(g: Graph) {
    && g.entry != "" && g.entry in g.nodes
    && (forall i :: 0 <= i < |g.edges| ==> EdgeOk(g.nodes, g.edges[i]))
    && g.terminals <= g.nodes.Keys
  }

  /** The error `e` names a real defect of the topology, the first one in checking order. */
  ghost predicate NamesDefect(g: Graph, e: BuildError) {
    match e
    case EntryNotSet => g.entry == ""
    case EntryMissing(id) => g.entry != "" && id == g.entry && id !in g.nodes
    case EdgeFromMissing(id) =>
      && g.entry != "" && g.entry in g.nodes && id !in g.nodes
      && exists i :: 0 <= i < |g.edges| && g.edges[i].fromID == id && forall j :: 0 <= j < i ==> EdgeOk(g.nodes, g.edges[j])
    case EdgeToMissing(id) =>
      && g.entry != "" && g.entry in g.nodes && id !in g.nodes
      && exists i :: 0 <= i < |g.edges| && !g.edges[i].isCond && g.edges[i].toID == id && g.edges[i].fromID in g.nodes
                     && forall j :: 0 <= j < i ==> EdgeOk(g.nodes, g.edges[j])
    case TerminalMissing(id) =>
      && g.entry != "" && g.entry in g.nodes && id in g.terminals && id !in g.nodes
      && forall i :: 0 <= i < |g.edges| ==> EdgeOk(g.nodes, g.edges[i])
  }

  // ---- reachability over static edges ----

  ghost predicate StaticEdge(edges: seq<Edge>, a: string, b: string) {
    exists k :: 0 <= k < |edges| && !edges[k].isCond && edges[k].fromID == a && edges[k].toID == b
  }

  ghost predicate IsPath(edges: seq<Edge>, p: seq<string>) {
    |p| > 0 && forall i :: 0 <= i < |p| - 1 ==> StaticEdge(edges, p[i], p[i + 1])
  }

  ghost predicate Reachable(edges: seq<Edge>, a: string, b: string) {
    exists p :: IsPath(edges, p) && p[0] == a && p[|p| - 1] == b
  }

  lemma ReachableSelf(edges: seq<Edge>, a: string)
    ensures Reachable(edges, a, a)
  {
    assert IsPath(edges, [a]) && [a][0] == a;
  }

  lemma ReachableStep(edges: seq<Edge>, a: string, b: string, c: string)
    requires Reachable(edges, a, b) && StaticEdge(edges, b, c)
    ensures Reachable(edges, a, c)
  {
    var p :| IsPath(edges, p) && p[0] == a && p[|p| - 1] == b;
    var q := p + [c];
    assert IsPath(edges, q) && q[0] == a && q[|q| - 1] == c;
  }

  ghost predicate ClosedUnder(edges: seq<Edge>, s: set<string>) {
    forall a, b :: a in s && StaticEdge(edges, a, b) ==> b in s
  }

  lemma {:induction false} ClosedContainsPath(edges: seq<Edge>, s: set<string>, p: seq<string>)
    requires ClosedUnder(edges, s) && IsPath(edges, p) && p[0] in s
    ensures p[|p| - 1] in s
  {
    if |p| > 1 {
      assert StaticEdge(edges, p[0], p[1]);
      ClosedContainsPath(edges, s, p[1..]);
    }
  }

  /** A set closed under static edges holds everything reachable from any of its members. */
  lemma ClosedContainsReachable(edges: seq<Edge>, s: set<string>, a: string)
    requires ClosedUnder(edges, s) && a in s
    ensures forall b :: Reachable(edges, a, b) ==> b in s
  {
    forall b | Reachable(edges, a, b) ensures b in s {
      var p :| IsPath(edges, p) && p[0] == a && p[|p| - 1] == b;
      ClosedContainsPath(edges, s, p);
    }
  }

  class Builder {
    var nodes: map<string, Node>
    var edges: seq<Edge>
    var entry: string
    var terminals: set<string>

    function Topology(): Graph
      reads this
    {
      Graph(nodes, edges, entry, terminals)
    }

    /** Nodes are filed under their own IDs. */
    ghost predicate Valid()
      reads this
    {
      forall id :: id in nodes ==> nodes[id].id == id
    }

    constructor ()
      ensures Valid() && Topology() == Graph(map[], [], "", {})
    {
      nodes, edges, entry, terminals := map[], [], "", {};
    }

    method AddNode(node: Node) returns (duplicate: bool)
      requires Valid()
      modifies this
      ensures Valid()
      ensures duplicate <==> node.id in old(nodes)
      ensures nodes == if duplicate then old(nodes) else old(nodes)[node.id := node]
      ensures edges == old(edges) && entry == old(entry) && terminals == old(terminals)
    {
      if node.id in nodes {
        return true;
      }
      nodes := nodes[node.id := node];
      return false;
    }

    method SetEntry(nodeID: string)
      requires Valid()
      modifies this
      ensures Valid() && Topology() == old(Topology()).(entry := nodeID)
    {
      entry := nodeID;
    }

    method SetTerminal(nodeIDs: seq<string>)
      requires Valid()
      modifies this
      ensures Valid()
      ensures terminals == old(terminals) + set i | 0 <= i < |nodeIDs| :: nodeIDs[i]
      ensures nodes == old(nodes) && edges == old(edges) && entry == old(entry)
    {
      for k := 0 to |nodeIDs|
        invariant terminals == old(terminals) + set i | 0 <= i < k :: nodeIDs[i]
        invariant nodes == old(nodes) && edges == old(edges) && entry == old(entry)
      {
        terminals := terminals + {nodeIDs[k]};
      }
    }

    method AddEdge(fromID: string, toID: string)
      requires Valid()
      modifies this
      ensures Valid() && nodes == old(nodes) && entry == old(entry) && terminals == old(terminals)
      ensures |edges| == |old(edges)| + 1 && edges[..|edges| - 1] == old(edges)
      ensures edges[|edges| - 1].fromID == fromID && edges[|edges| - 1].toID == toID && !edges[|edges| - 1].isCond
    {
      edges := edges + [Edge(fromID, toID, false, (k, s) => Ok(""))];
    }

    method AddConditionalEdge(fromID: string, router: (nat, AgentState) -> Attempt<string>)
      requires Valid()
      modifies this
      ensures Valid() && Topology() == old(Topology()).(edges := old(edges) + [Edge(fromID, "", true, router)])
    {
      edges := edges + [Edge(fromID, "", true, router)];
    }

    /** The worklist pass. The queue may hold duplicates and grow, so it terminates because each round
        either marks a new node or shortens the queue. `warned` is what gets logged. */
    method CheckReachability() returns (reachable: set<string>, warned: set<string>)
      ensures forall v :: v in reachable <==> Reachable(edges, entry, v)
      ensures warned == nodes.Keys - reachable
    {
      ghost var universe := {entry} + set i | 0 <= i < |edges| :: edges[i].toID;
      reachable := {};
      var queue := [entry];
      ReachableSelf(edges, entry);
      while |queue| > 0
        invariant reachable <= universe && forall v :: v in queue ==> v in universe
        invariant forall v :: v in reachable || v in queue ==> Reachable(edges, entry, v)
        invariant forall a, b :: a in reachable && StaticEdge(edges, a, b) ==> b in reachable || b in queue
        invariant entry in reachable || entry in queue
        decreases universe - reachable, |queue|
      {
        var curr := queue[0];
        ghost var waiting := queue;
        queue := queue[1..];
        assert forall v :: v in waiting ==> v == curr || v in queue;
        if curr in reachable {
          continue;
        }
        reachable := reachable + {curr};
        for i := 0 to |edges|
          invariant forall v :: v in queue ==> v in universe
          invariant forall v :: v in waiting ==> v == curr || v in queue
          invariant forall v :: v in queue ==> Reachable(edges, entry, v)
          invariant forall k :: 0 <= k < i && edges[k].fromID == curr && !edges[k].isCond ==> edges[k].toID in queue
        {
          if edges[i].fromID == curr {
            if !edges[i].isCond {
              assert StaticEdge(edges, curr, edges[i].toID);
              ReachableStep(edges, entry, curr, edges[i].toID);
              queue := queue + [edges[i].toID];
            }
          }
        }
      }
      assert ClosedUnder(edges, reachable);
      ClosedContainsReachable(edges, reachable, entry);

      warned := {};
      var left := nodes.Keys;
      while left != {}
        invariant left <= nodes.Keys
        invariant warned == (nodes.Keys - left) - reachable
        decreases left
      {
        var id :| id in left;
        if id !in reachable {
          warned := warned + {id};
        }
        left := left - {id};
      }
    }

    /** Build succeeds exactly on well-formed topologies and returns them unchanged; otherwise its error
        names a defect. */
    method Build() returns (r: BuildResult, warned: set<string>)
      requires Valid()
      ensures r.Built? <==> WellFormed(Topology())
      ensures r.Built? ==> r.g == Topology() && forall v :: v in warned <==> v in nodes && !Reachable(edges, entry, v)
      ensures r.Rejected? ==> NamesDefect(Topology(), r.error) && warned == {}
    {
      warned := {};
      if entry == "" {
        return Rejected(EntryNotSet), warned;
      }
      if entry !in nodes {
        return Rejected(EntryMissing(entry)), warned;
      }
      for i := 0 to |edges|
        invariant forall j :: 0 <= j < i ==> EdgeOk(nodes, edges[j])
      {
        if edges[i].fromID !in nodes {
          assert !EdgeOk(nodes, edges[i]);
          return Rejected(EdgeFromMissing(edges[i].fromID)), warned;
        }
        if !edges[i].isCond && edges[i].toID !in nodes {
          assert !EdgeOk(nodes, edges[i]);
          return Rejected(EdgeToMissing(edges[i].toID)), warned;
        }
      }
      var left := terminals;
      while left != {}
        invariant left <= terminals && terminals - left <= nodes.Keys
        decreases left
      {
        var t :| t in left;
        if t !in nodes {
          return Rejected(TerminalMissing(t)), warned;
        }
        left := left - {t};
      }
      var reachable;
      reachable, warned := CheckReachability();
      r := Built(Graph(nodes, edges, entry, terminals));
    }
  }
}
