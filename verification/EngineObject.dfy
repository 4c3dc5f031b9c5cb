/** The engine as the object the source has: it reassigns its state in a loop and writes to a memory store,
    a task store, hooks and an event bus as it goes. Every method is proved to do what module Engine says. */
module EngineObject {
  import opened Core
  import opened Retry
  import opened Graphs
  import opened Hooks
  import opened Store
  import E = Engine

  class Engine {
    const graph: Graph
    const maxSteps: int
    const policy: Policy
    const hasTaskStore: bool
    const hasBus: bool
    const cancelled: nat -> bool
    const rand: nat -> real
    const memoryStore: InMemoryStore
    /** Does attached hook number i panic on this call? */
    const hookPanics: (nat, Meta) -> bool

    var clock: nat
    var execs: seq<E.Tagged<E.Exec>>
    var hooks: seq<Meta>
    /** The calls each attached hook has received. */
    var heard: seq<seq<Meta>>
    var posts: seq<E.Tagged<E.Post>>
    var statuses: seq<E.Tagged<E.StatusWrite>>
    var pauses: seq<string>
    var faults: nat

    function Cfg(): E.Config {
      E.Config(graph, maxSteps, policy.maxAttempts, hasTaskStore, hasBus, cancelled, memoryStore.marshals)
    }

    function World(): E.World
      reads this, memoryStore
    {
      E.World(clock, memoryStore.View(), execs, hooks, posts, statuses, pauses, faults)
    }

    /** Every attached hook has heard the whole trace. */
    ghost predicate InTune()
      reads this
    {
      forall i :: 0 <= i < |heard| ==> heard[i] == hooks
    }

    constructor (g: Graph, mem: InMemoryStore, maxSteps: int, policy: Policy, hasTaskStore: bool, hasBus: bool,
                 cancelled: nat -> bool, rand: nat -> real, hookCount: nat, hookPanics: (nat, Meta) -> bool)
      ensures World() == E.NEW_WORLD.(store := mem.View())
      ensures Cfg() == E.Config(g, maxSteps, policy.maxAttempts, hasTaskStore, hasBus, cancelled, mem.marshals)
      ensures memoryStore == mem && |heard| == hookCount && InTune()
    {
      graph, memoryStore, this.maxSteps, this.policy := g, mem, maxSteps, policy;
      this.hasTaskStore, this.hasBus, this.cancelled, this.rand := hasTaskStore, hasBus, cancelled, rand;
      clock, execs, hooks, posts, statuses, pauses, faults := 0, [], [], [], [], [], 0;
      this.hookPanics := hookPanics;
      heard := seq(hookCount, _ => []);
    }

    method CallHook(i: nat, meta: Meta) returns (panicked: bool)
      requires i < |heard|
      modifies this`heard
      ensures heard == old(heard)[i := old(heard)[i] + [meta]] && panicked == hookPanics(i, meta)
    {
      heard := heard[i := heard[i] + [meta]];
      panicked := hookPanics(i, meta);
    }

    /** Every hook hears of the event once, in the order attached; a hook that panics is recovered from and
        keeps neither the later hooks nor the engine from going on. */
    method FireHooks(point: Point, nodeID: string, stepCount: int, err: Option<Err>)
      modifies this`hooks, this`heard
      ensures hooks == old(hooks) + [Meta(point, nodeID, stepCount, err)]
      ensures |heard| == |old(heard)|
      ensures forall i :: 0 <= i < |heard| ==> heard[i] == old(heard)[i] + [Meta(point, nodeID, stepCount, err)]
      ensures old(InTune()) ==> InTune()
    {
      var meta := Meta(point, nodeID, stepCount, err);
      hooks := hooks + [meta];
      for i := 0 to |heard|
        invariant |heard| == |old(heard)| && hooks == old(hooks) + [meta]
        invariant forall k :: 0 <= k < |heard| ==> heard[k] == if k < i then old(heard)[k] + [meta] else old(heard)[k]
      {
        var _ := CallHook(i, meta);  // a panic ends here
      }
    }

    method Persist(sid: string, state: AgentState) returns (lost: bool)
      modifies this`faults, memoryStore
      ensures World() == E.SaveState(Cfg(), old(World()), sid, state)
      ensures lost <==> !memoryStore.marshals(state)
    {
      var id := memoryStore.Save(sid, state);
      if id == None {
        faults := faults + 1;
      }
      return id == None;
    }

    method ResolveNextNode(state: AgentState) returns (route: Attempt<string>)
      modifies this`clock
      ensures E.ResolveNext(Cfg(), old(World()), state) == E.Resolved(route, World())
    {
      var i := 0;
      while i < |graph.edges|
        invariant 0 <= i <= |graph.edges|
        invariant E.FirstEdge(graph.edges[i..], state.lastNodeID) == E.FirstEdge(graph.edges, state.lastNodeID)
        invariant clock == old(clock)
      {
        var edge := graph.edges[i];
        assert graph.edges[i..][0] == edge && graph.edges[i..][1..] == graph.edges[i + 1..];
        if edge.fromID == state.lastNodeID {
          if edge.isCond {
            route := edge.router(clock, state);
            clock := clock + 1;
            return;
          }
          return Ok(edge.toID);
        }
        i := i + 1;
      }
      return Ok("");
    }

    method ProcessNodeWithRetry(sid: string, node: Node, state: AgentState) returns (verdict: Verdict<Reply>)
      requires state.lastNodeID in graph.nodes && node == graph.nodes[state.lastNodeID]
      modifies this`clock, this`execs
      ensures var ran := E.Attempts(Cfg(), state.lastNodeID, state, old(clock));
              && verdict == ran.verdict
              && clock == old(clock) + ran.calls
              && execs == old(execs) + [E.Tagged(sid, E.Exec(state.lastNodeID, ran.calls))]
    {
      var calls, sleeps;
      verdict, calls, sleeps := Execute(policy, E.Tape(node.process, state, clock), E.Shift(cancelled, clock), rand);
      clock := clock + calls;
      execs := execs + [E.Tagged(sid, E.Exec(state.lastNodeID, calls))];
    }

    method UpdateStatus(sid: string, taskID: string, s: TaskState)
      modifies this`statuses
      ensures statuses == old(statuses) + [E.Tagged(sid, E.StatusWrite(taskID, s))]
    {
      statuses := statuses + [E.Tagged(sid, E.StatusWrite(taskID, s))];
    }

    method AppendArtifacts(sid: string, taskID: string, artifacts: seq<Artifact>)
      modifies this`posts
      ensures posts == old(posts) + E.PostsOf(sid, taskID, artifacts)
    {
      for i := 0 to |artifacts|
        invariant posts == old(posts) + E.PostsOf(sid, taskID, artifacts[..i])
      {
        posts := posts + [E.Tagged(sid, E.Post(taskID, artifacts[i]))];
        assert E.PostsOf(sid, taskID, artifacts[..i + 1])
            == E.PostsOf(sid, taskID, artifacts[..i]) + [E.Tagged(sid, E.Post(taskID, artifacts[i]))];
      }
      assert artifacts[..|artifacts|] == artifacts;
    }

    /** The first half of a loop turn: run the node with its hooks, then sync the task store. */
    method ExecuteNode(sid: string, state: AgentState) returns (o: E.Outcome)
      requires state.lastNodeID in graph.nodes && InTune()
      modifies this
      ensures memoryStore.View() == old(memoryStore.View())
      ensures InTune() && |heard| == |old(heard)|
      ensures var ran := E.Attempts(Cfg(), state.lastNodeID, state, old(clock));
              && o == E.Perform(Cfg(), state.lastNodeID, state, ran.verdict)
              && World() == E.Account(Cfg(), old(World()), sid, state.lastNodeID, state, ran.calls, o)
    {
      var id := state.lastNodeID;
      FireHooks(BeforeNode, id, state.stepCount, None);
      var verdict := ProcessNodeWithRetry(sid, graph.nodes[id], state);
      var stepCount := state.stepCount + 1;
      if verdict.Failure? {
        FireHooks(OnError, id, stepCount, Some(verdict.err));
        if state.taskID != "" && hasTaskStore {
          UpdateStatus(sid, state.taskID, TaskFailed);
        }
        return E.Errored(verdict.err);
      }
      if verdict.NoAttempt? || verdict.value.NilReply? {
        faults := faults + 1;
        return E.Crash(false);
      }
      FireHooks(AfterNode, id, stepCount, None);
      o := AbsorbReply(sid, state, verdict.value);
    }

    /** Take over the reply's state and sync what it brought to the task store. */
    method AbsorbReply(sid: string, state: AgentState, reply: Reply) returns (o: E.Outcome)
      requires reply.Reply?
      modifies this`posts, this`statuses, this`faults
      ensures o == E.Perform(Cfg(), state.lastNodeID, state, Success(reply))
      ensures posts == old(posts) + E.NewPosts(sid, o)
      ensures statuses == old(statuses) + E.NewStatuses(Cfg(), sid, state, o)
      ensures faults == old(faults) + if o.Crash? then 1 else 0
    {
      if reply.state == None {
        return E.Replied(state.(stepCount := state.stepCount + 1), None, reply.nextNodes, reply.interrupt);
      }
      var result := reply.state.value.(stepCount := state.stepCount + 1, lastNodeID := state.lastNodeID);
      if result.taskID == "" || !hasTaskStore {
        return E.Replied(result, None, reply.nextNodes, reply.interrupt);
      }
      if |result.artifacts| < |state.artifacts| {
        faults := faults + 1;
        return E.Crash(true);
      }
      var newArtifacts := result.artifacts[|state.artifacts|..];
      AppendArtifacts(sid, result.taskID, newArtifacts);
      UpdateStatus(sid, result.taskID, TaskStateOf(result.status));
      return E.Replied(result, Some(newArtifacts), reply.nextNodes, reply.interrupt);
    }

    /** Park the session, then announce it on the bus; `silent` announcements panic. */
    method Park(sid: string, state: AgentState, silent: bool) returns (x: E.Exit)
      modifies this`faults, this`pauses, memoryStore
      ensures E.Stop(x, World()) == E.Park(Cfg(), old(World()), sid, state, silent)
    {
      var paused := state.WithStatus(Paused);
      var _ := Persist(sid, paused);
      if hasBus {
        if silent {
          faults := faults + 1;
          return E.Panicked;
        }
        pauses := pauses + [sid];
      }
      return E.Returned(paused, None);
    }

    /** Nothing follows this node: done if it is a Terminal, failed otherwise. */
    method Conclude(sid: string, state: AgentState, nodeID: string) returns (x: E.Exit)
      modifies this`faults, memoryStore
      ensures E.Stop(x, World()) == E.Proceed(Cfg(), old(World()), sid, nodeID, state, "")
    {
      if nodeID in graph.terminals {
        var _ := Persist(sid, state.WithStatus(Completed));
        return E.Returned(state.WithStatus(Completed), None);
      }
      var _ := Persist(sid, state.WithStatus(Failed));
      return E.Returned(state.WithStatus(Failed), Some(ERR_NO_NEXT_NODE));
    }

    /** A node's override beats the graph's edges. */
    method NextNode(state: AgentState, nextNodes: seq<string>) returns (route: Attempt<string>)
      modifies this`clock
      ensures E.Resolved(route, World())
           == if nextNodes != [] then E.Resolved(Ok(nextNodes[0]), old(World())) else E.ResolveNext(Cfg(), old(World()), state)
    {
      if |nextNodes| > 0 {
        return Ok(nextNodes[0]);
      }
      route := ResolveNextNode(state);
    }

    /** The second half of a loop turn: stop, or go on to a next node. */
    method React(sid: string, executed: AgentState, o: E.Outcome) returns (stop: bool, state: AgentState, x: E.Exit)
      modifies this`clock, this`faults, this`pauses, memoryStore
      ensures E.Decide(Cfg(), old(World()), sid, executed.lastNodeID, executed, o)
           == if stop then E.Stop(x, World()) else E.Continue(state, World())
    {
      stop, state, x := true, executed, E.Panicked;
      if o.Crash? {
        return;
      }
      if o.Errored? {
        state := state.(stepCount := state.stepCount + 1);
        if IsCategory(o.err, HumanNeeded) {
          x := Park(sid, state, AsAgent(o.err).value.cause == None);
          return;
        }
        var _ := Persist(sid, state.WithStatus(Failed));
        x := E.Returned(state.WithStatus(Failed), Some(o.err));
        return;
      }
      state := o.state;
      if o.interrupt.Some? {
        x := Park(sid, state, false);
        return;
      }
      var route := NextNode(state, o.nextNodes);
      if route.Fail? {
        var _ := Persist(sid, state.WithStatus(Failed));
        x := E.Returned(state.WithStatus(Failed), Some(route.err));
        return;
      }
      if route.value == "" {
        x := Conclude(sid, state, executed.lastNodeID);
        return;
      }
      stop, state := false, state.(lastNodeID := route.value);
    }

    method RunLoop(sid: string, currentState: AgentState) returns (x: E.Exit)
      requires InTune()
      modifies this, memoryStore
      ensures InTune() && |heard| == |old(heard)|
      ensures E.Result(x, World()) == E.RunLoop(Cfg(), old(World()), sid, currentState)
    {
      var state := currentState;
      while true
        invariant InTune() && |heard| == |old(heard)|
        invariant E.RunLoop(Cfg(), World(), sid, state) == E.RunLoop(Cfg(), old(World()), sid, currentState)
        decreases E.StepsLeft(Cfg(), state)
      {
        ghost var turn := E.Iterate(Cfg(), World(), sid, state);
        E.TurnUsesOneStep(Cfg(), World(), sid, state);
        if state.status == Failed || state.status == Completed {
          var lost := Persist(sid, state);
          return E.Returned(state, if lost then Some(ERR_MARSHAL) else None);
        }
        if state.stepCount >= maxSteps {
          var _ := Persist(sid, state.WithStatus(Failed));
          return E.Returned(state.WithStatus(Failed), Some(ERR_MAX_STEPS));
        }
        if state.lastNodeID !in graph.nodes {
          var _ := Persist(sid, state.WithStatus(Failed));
          return E.Returned(state.WithStatus(Failed), Some(ERR_NO_NEXT_NODE));
        }
        var o := ExecuteNode(sid, state);
        assert turn == E.Decide(Cfg(), World(), sid, state.lastNodeID, state, o);
        var stop, next;
        stop, next, x := React(sid, state, o);
        if stop {
          return;
        }
        state := next;
        assert turn == E.Continue(state, World());
      }
    }

    method Start(sid: string, initialState: Option<AgentState>) returns (x: E.Exit)
      requires InTune()
      modifies this, memoryStore
      ensures InTune() && |heard| == |old(heard)|
      ensures E.Result(x, World()) == E.Start(Cfg(), old(World()), sid, initialState)
    {
      var state := if initialState == None then NEW_STATE else initialState.value;
      state := state.WithStatus(Running);
      if state.lastNodeID == "" {
        state := state.(lastNodeID := graph.entry);
      }
      x := RunLoop(sid, state);
    }

    method Resume(sid: string, injection: map<string, Value>) returns (x: E.Exit)
      requires InTune()
      modifies this, memoryStore
      ensures InTune() && |heard| == |old(heard)|
      ensures E.Result(x, World()) == E.Resume(Cfg(), old(World()), sid, injection)
    {
      var loaded := memoryStore.Load(sid);
      if loaded == None {
        return E.Refused(ERR_SESSION_NOT_FOUND);
      }
      if loaded.value.status != Paused {
        return E.Returned(loaded.value, None);
      }
      var state := InjectAll(loaded.value, injection);
      state := state.WithStatus(Running);
      var route := ResolveNextNode(state);
      if route.Fail? {
        return E.Refused(route.err);
      }
      if route.value == "" {
        if state.lastNodeID in graph.terminals {
          state := state.WithStatus(Completed);
          var _ := Persist(sid, state);
          return E.Returned(state, None);
        }
        return E.Refused(ERR_NO_NEXT_NODE);
      }
      state := state.(lastNodeID := route.value);
      x := RunLoop(sid, state);
    }
  }

  /** Setting the injected variables one by one, in whatever order the map is ranged over, is one overlay. */
  method InjectAll(saved: AgentState, injection: map<string, Value>) returns (state: AgentState)
    ensures state == saved.(variables := saved.variables + injection)
  {
    state := saved;
    var left := injection.Keys;
    while left != {}
      invariant left <= injection.Keys
      invariant state == saved.(variables := state.variables)
      invariant state.variables == saved.variables + (injection - left)
      decreases left
    {
      var k :| k in left;
      state := state.WithVariable(k, injection[k]);
      left := left - {k};
    }
    assert injection - {} == injection;
  }
}
