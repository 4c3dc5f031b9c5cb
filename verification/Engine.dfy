/** The engine (engine/engine.go) as a function: what one loop iteration, one run, one Start and one
    Resume do to the world. Class EngineObject.Engine carries it out step by step and is proved equal. */
module Engine {
  import opened Core
  import opened Retry
  import opened Graphs
  import opened Hooks
  import opened Store

  /** What an engine is built from. `cancelled(k)` says whether the context is done while waiting after the
      Process call that was question number k; `marshals` says which states the store can encode. */
  datatype Config = Config(
    graph: Graph,
    maxSteps: int,
    maxAttempts: int,
    hasTaskStore: bool,
    hasBus: bool,
    cancelled: nat -> bool,
    marshals: AgentState -> bool)

  /** A log entry and the session whose run wrote it. */
  datatype Tagged<T> = Tagged(session: string, item: T)

  /** One executed node and the Process calls it took. */
  datatype Exec = Exec(nodeID: string, calls: nat)

  datatype Post = Post(taskID: string, artifact: Artifact)

  datatype StatusWrite = StatusWrite(taskID: string, state: TaskState)

  /** Everything a run can touch. `clock` counts the questions put to nodes and routers; `faults` counts
      panics and snapshots lost because they could not be marshalled. */
  datatype World = World(
    clock: nat,
    store: Contents,
    execs: seq<Tagged<Exec>>,
    hooks: seq<Meta>,
    posts: seq<Tagged<Post>>,
    statuses: seq<Tagged<StatusWrite>>,
    pauses: seq<string>,
    faults: nat)

  /** How Start or Resume ends: a state and an error (None is nil), a nil state and an error, or a panic. */
  datatype Exit = Returned(state: AgentState, err: Option<Err>) | Refused(why: Err) | Panicked

  datatype Step = Continue(state: AgentState, world: World) | Stop(exit: Exit, world: World)

  datatype Result = Result(exit: Exit, world: World)

  // ---- performing a node ----

  /** What executing a node amounts to for the loop. `Crash` is a panic in the loop body: a nil result
      (before the AfterNode hook) or a reply with fewer artifacts than it was given (after it). `added` is
      what must be posted to the task store. */
  datatype Outcome =
    | Crash(afterHook: bool)
    | Errored(err: Err)
    | Replied(state: AgentState, added: Option<seq<Artifact>>, nextNodes: seq<string>, interrupt: Option<Interrupt>)

  /** The answers a node would give to successive attempts from clock reading `clock` on. */
  function Tape(process: (nat, AgentState) -> Attempt<Reply>, st: AgentState, clock: nat): nat -> Attempt<Reply> {
    (i: nat) => process(clock + i, st)
  }

  function Shift(f: nat -> bool, clock: nat): nat -> bool {
    (i: nat) => f(clock + i)
  }

  function Attempts(cfg: Config, id: string, st: AgentState, clock: nat): Ran<Reply>
    requires id in cfg.graph.nodes
  {
    Run(cfg.maxAttempts, Tape(cfg.graph.nodes[id].process, st, clock), Shift(cfg.cancelled, clock))
  }

  function Perform(cfg: Config, id: string, st: AgentState, verdict: Verdict<Reply>): Outcome {
    match verdict
    case NoAttempt => Crash(false)
    case Failure(e) => Errored(e)
    case Success(NilReply) => Crash(false)
    case Success(Reply(reported, nextNodes, interrupt)) =>
      if reported == None then
        Replied(st.(stepCount := st.stepCount + 1), None, nextNodes, interrupt)
      else
        var s := reported.value.(stepCount := st.stepCount + 1, lastNodeID := id);
        if s.taskID == "" || !cfg.hasTaskStore then Replied(s, None, nextNodes, interrupt)
        else if |s.artifacts| < |st.artifacts| then Crash(true)
        else Replied(s, Some(s.artifacts[|st.artifacts|..]), nextNodes, interrupt)
  }

  function Closing(id: string, st: AgentState, o: Outcome): seq<Meta> {
    match o
    case Crash(afterHook) => if afterHook then [Meta(AfterNode, id, st.stepCount + 1, None)] else []
    case Errored(e) => [Meta(OnError, id, st.stepCount + 1, Some(e))]
    case Replied(_, _, _, _) => [Meta(AfterNode, id, st.stepCount + 1, None)]
  }

  function PostsOf(sid: string, taskID: string, artifacts: seq<Artifact>): (r: seq<Tagged<Post>>)
    ensures |r| == |artifacts|
  {
    seq(|artifacts|, i requires 0 <= i < |artifacts| => Tagged(sid, Post(taskID, artifacts[i])))
  }

  function NewPosts(sid: string, o: Outcome): seq<Tagged<Post>> {
    if o.Replied? && o.added.Some? then PostsOf(sid, o.state.taskID, o.added.value) else []
  }

  function NewStatuses(cfg: Config, sid: string, st: AgentState, o: Outcome): seq<Tagged<StatusWrite>> {
    match o
    case Crash(_) => []
    case Errored(_) =>
      if st.taskID != "" && cfg.hasTaskStore then [Tagged(sid, StatusWrite(st.taskID, TaskFailed))] else []
    case Replied(s, added, _, _) =>
      if added.Some? then [Tagged(sid, StatusWrite(s.taskID, TaskStateOf(s.status)))] else []
  }

  /** The logs after the node ran: hooks, executions, artifacts and task status. */
  function Account(cfg: Config, w: World, sid: string, id: string, st: AgentState, calls: nat, o: Outcome): World {
    World(
      w.clock + calls,
      w.store,
      w.execs + [Tagged(sid, Exec(id, calls))],
      w.hooks + [Meta(BeforeNode, id, st.stepCount, None)] + Closing(id, st, o),
      w.posts + NewPosts(sid, o),
      w.statuses + NewStatuses(cfg, sid, st, o),
      w.pauses,
      w.faults + if o.Crash? then 1 else 0)
  }

  // ---- what the loop does next ----

  function SaveState(cfg: Config, w: World, sid: string, st: AgentState): World {
    if cfg.marshals(st) then w.(store := Put(w.store, sid, st)) else w.(faults := w.faults + 1)
  }

  function End(cfg: Config, w: World, sid: string, st: AgentState, err: Option<Err>): Step {
    Stop(Returned(st, err), SaveState(cfg, w, sid, st))
  }

  /** Park the session; `silent` is a pause whose announcement would dereference a nil cause. */
  function Park(cfg: Config, w: World, sid: string, st: AgentState, silent: bool): Step {
    var p := st.WithStatus(Paused);
    var w1 := SaveState(cfg, w, sid, p);
    if !cfg.hasBus then Stop(Returned(p, None), w1)
    else if silent then Stop(Panicked, w1.(faults := w1.faults + 1))
    else Stop(Returned(p, None), w1.(pauses := w1.pauses + [sid]))
  }

  function FirstEdge(edges: seq<Edge>, id: string): Option<Edge> {
    if edges == [] then None
    else if edges[0].fromID == id then Some(edges[0])
    else FirstEdge(edges[1..], id)
  }

  lemma {:induction false} FirstEdgeIsFirst(edges: seq<Edge>, id: string)
    ensures FirstEdge(edges, id) == None ==> forall i :: 0 <= i < |edges| ==> edges[i].fromID != id
    ensures FirstEdge(edges, id).Some? ==>
              exists i :: 0 <= i < |edges| && edges[i] == FirstEdge(edges, id).value && edges[i].fromID == id
                          && forall j :: 0 <= j < i ==> edges[j].fromID != id
  {
    if edges != [] && edges[0].fromID != id {
      FirstEdgeIsFirst(edges[1..], id);
      if FirstEdge(edges, id).Some? {
        var k :| 0 <= k < |edges[1..]| && edges[1..][k] == FirstEdge(edges, id).value && edges[1..][k].fromID == id
                 && forall j :: 0 <= j < k ==> edges[1..][j].fromID != id;
        assert forall j :: 1 <= j < k + 1 ==> edges[j] == edges[1..][j - 1];
        assert edges[k + 1] == FirstEdge(edges, id).value;
      } else {
        assert forall j :: 1 <= j < |edges| ==> edges[j] == edges[1..][j - 1];
      }
    }
  }

  datatype Resolved = Resolved(route: Attempt<string>, world: World)

  /** The first edge leaving the state's last node decides; a router is one question. */
  function ResolveNext(cfg: Config, w: World, st: AgentState): Resolved {
    match FirstEdge(cfg.graph.edges, st.lastNodeID)
    case None => Resolved(Ok(""), w)
    case Some(e) =>
      if e.isCond then Resolved(e.router(w.clock, st), w.(clock := w.clock + 1)) else Resolved(Ok(e.toID), w)
  }

  function Proceed(cfg: Config, w: World, sid: string, id: string, st: AgentState, next: string): Step {
    if next != "" then Continue(st.(lastNodeID := next), w)
    else if id in cfg.graph.terminals then End(cfg, w, sid, st.WithStatus(Completed), None)
    else End(cfg, w, sid, st.WithStatus(Failed), Some(ERR_NO_NEXT_NODE))
  }

  function RouteOn(cfg: Config, w: World, sid: string, id: string, st: AgentState, nextNodes: seq<string>): Step {
    if nextNodes != [] then Proceed(cfg, w, sid, id, st, nextNodes[0])
    else
      var r := ResolveNext(cfg, w, st);
      match r.route
      case Fail(e) => End(cfg, r.world, sid, st.WithStatus(Failed), Some(e))
      case Ok(next) => Proceed(cfg, r.world, sid, id, st, next)
  }

  function Decide(cfg: Config, w: World, sid: string, id: string, st: AgentState, o: Outcome): Step {
    match o
    case Crash(_) => Stop(Panicked, w)
    case Errored(e) =>
      var st1 := st.(stepCount := st.stepCount + 1);
      if IsCategory(e, HumanNeeded) then Park(cfg, w, sid, st1, AsAgent(e).value.cause == None)
      else End(cfg, w, sid, st1.WithStatus(Failed), Some(e))
    case Replied(s, _, nextNodes, interrupt) =>
      if interrupt.Some? then Park(cfg, w, sid, s, false) else RouteOn(cfg, w, sid, id, s, nextNodes)
  }

  /** One turn of the loop in runLoop. */
  function Iterate(cfg: Config, w: World, sid: string, st: AgentState): Step {
    if st.status == Failed || st.status == Completed then
      End(cfg, w, sid, st, if cfg.marshals(st) then None else Some(ERR_MARSHAL))
    else if st.stepCount >= cfg.maxSteps then
      End(cfg, w, sid, st.WithStatus(Failed), Some(ERR_MAX_STEPS))
    else if st.lastNodeID !in cfg.graph.nodes then
      End(cfg, w, sid, st.WithStatus(Failed), Some(ERR_NO_NEXT_NODE))
    else
      var id := st.lastNodeID;
      var ran := Attempts(cfg, id, st, w.clock);
      var o := Perform(cfg, id, st, ran.verdict);
      Decide(cfg, Account(cfg, w, sid, id, st, ran.calls, o), sid, id, st, o)
  }

  /** The loop reaches and performs a node. */
  predicate Performs(cfg: Config, st: AgentState) {
    st.status != Failed && st.status != Completed && st.stepCount < cfg.maxSteps && st.lastNodeID in cfg.graph.nodes
  }

  function OutcomeOf(cfg: Config, w: World, st: AgentState): Outcome
    requires Performs(cfg, st)
  {
    Perform(cfg, st.lastNodeID, st, Attempts(cfg, st.lastNodeID, st, w.clock).verdict)
  }

  function Accounted(cfg: Config, w: World, sid: string, st: AgentState): World
    requires Performs(cfg, st)
  {
    Account(cfg, w, sid, st.lastNodeID, st, Attempts(cfg, st.lastNodeID, st, w.clock).calls, OutcomeOf(cfg, w, st))
  }

  /** However a node reports the step count, a turn that goes on has used up exactly one step. */
  lemma TurnUsesOneStep(cfg: Config, w: World, sid: string, st: AgentState)
    ensures Iterate(cfg, w, sid, st).Continue? ==>
              st.stepCount < cfg.maxSteps && Iterate(cfg, w, sid, st).state.stepCount == st.stepCount + 1
  {
  }

  function StepsLeft(cfg: Config, st: AgentState): nat {
    if st.stepCount < cfg.maxSteps then cfg.maxSteps - st.stepCount else 0
  }

  function RunLoop(cfg: Config, w: World, sid: string, st: AgentState): Result
    decreases StepsLeft(cfg, st)
  {
    TurnUsesOneStep(cfg, w, sid, st);
    match Iterate(cfg, w, sid, st)
    case Stop(exit, w1) => Result(exit, w1)
    case Continue(st1, w1) => RunLoop(cfg, w1, sid, st1)
  }

  // ---- Start and Resume ----

  function Prepared(cfg: Config, initial: Option<AgentState>): AgentState {
    var st := (if initial == None then NEW_STATE else initial.value).WithStatus(Running);
    if st.lastNodeID == "" then st.(lastNodeID := cfg.graph.entry) else st
  }

  function Start(cfg: Config, w: World, sid: string, initial: Option<AgentState>): Result {
    RunLoop(cfg, w, sid, Prepared(cfg, initial))
  }

  function Injected(st: AgentState, injection: map<string, Value>): AgentState {
    st.(variables := st.variables + injection, status := Running)
  }

  function Resume(cfg: Config, w: World, sid: string, injection: map<string, Value>): Result {
    match Latest(w.store, sid)
    case None => Result(Refused(ERR_SESSION_NOT_FOUND), w)
    case Some(saved) =>
      if saved.status != Paused then Result(Returned(saved, None), w)
      else
        var st := Injected(saved, injection);
        var r := ResolveNext(cfg, w, st);
        match r.route
        case Fail(e) => Result(Refused(e), r.world)
        case Ok(next) =>
          if next != "" then RunLoop(cfg, r.world, sid, st.(lastNodeID := next))
          else if st.lastNodeID in cfg.graph.terminals then
            var done := st.WithStatus(Completed);
            Result(Returned(done, None), SaveState(cfg, r.world, sid, done))
          else Result(Refused(ERR_NO_NEXT_NODE), r.world)
  }

  // ---- sequences of calls on any number of sessions ----

  datatype Call =
    | StartCall(sid: string, initial: Option<AgentState>)
    | ResumeCall(sid: string, injection: map<string, Value>)

  function Apply(cfg: Config, w: World, c: Call): Result {
    match c
    case StartCall(sid, initial) => Start(cfg, w, sid, initial)
    case ResumeCall(sid, injection) => Resume(cfg, w, sid, injection)
  }

  /** The world after the calls, made one after the other. */
  function After(cfg: Config, w: World, calls: seq<Call>): World {
    if calls == [] then w
    else Apply(cfg, After(cfg, w, calls[..|calls| - 1]), calls[|calls| - 1]).world
  }

  const NEW_WORLD := World(0, EMPTY, [], [], [], [], [], 0)

  /** The entries one session wrote, in order. */
  function Of<T>(log: seq<Tagged<T>>, sid: string): seq<T> {
    if log == [] then []
    else
      var rest := Of(log[..|log| - 1], sid);
      if log[|log| - 1].session == sid then rest + [log[|log| - 1].item] else rest
  }

  lemma {:induction false} OfConcat<T>(a: seq<Tagged<T>>, b: seq<Tagged<T>>, sid: string)
    ensures Of(a + b, sid) == Of(a, sid) + Of(b, sid)
  {
    if b == [] {
      assert a + b == a;
    } else {
      OfConcat(a, b[..|b| - 1], sid);
      assert (a + b)[..|a + b| - 1] == a + b[..|b| - 1];
    }
  }
}
