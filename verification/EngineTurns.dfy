/** What one turn of the loop, one Start and one Resume do, read off the graph, the node's answer and the
    snapshot: where control goes, in which state, and what is logged. */
module EngineTurns {
  import opened Core
  import opened Retry
  import opened Graphs
  import opened Hooks
  import opened Store
  import opened Engine

  // ---- where a state leads ----

  /** Routing this state at clock reading `clock` answers `next`, and the clock then reads `clock1`: the first
      edge leaving its node answers with its target, or with what its router says about this very state; if no
      edge leaves the node, with no node. Only a router is a question. */
  ghost predicate LeadsTo(g: Graph, clock: nat, st: AgentState, next: Attempt<string>, clock1: nat) {
    || ((forall i :: 0 <= i < |g.edges| ==> g.edges[i].fromID != st.lastNodeID) && next == Ok("") && clock1 == clock)
    || exists i :: 0 <= i < |g.edges| && LeadsBy(g, i, clock, st, next, clock1)
  }

  ghost predicate LeadsBy(g: Graph, i: nat, clock: nat, st: AgentState, next: Attempt<string>, clock1: nat)
    requires i < |g.edges|
  {
    && g.edges[i].fromID == st.lastNodeID
    && (forall j :: 0 <= j < i ==> g.edges[j].fromID != st.lastNodeID)
    && (g.edges[i].isCond ==> next == g.edges[i].router(clock, st) && clock1 == clock + 1)
    && (!g.edges[i].isCond ==> next == Ok(g.edges[i].toID) && clock1 == clock)
  }

  lemma ResolvedLeads(cfg: Config, w: World, st: AgentState)
    ensures var r := ResolveNext(cfg, w, st);
            LeadsTo(cfg.graph, w.clock, st, r.route, r.world.clock) && r.world == w.(clock := r.world.clock)
  {
    FirstEdgeIsFirst(cfg.graph.edges, st.lastNodeID);
    var e := FirstEdge(cfg.graph.edges, st.lastNodeID);
    if e.Some? {
      var i :| 0 <= i < |cfg.graph.edges| && cfg.graph.edges[i] == e.value && cfg.graph.edges[i].fromID == st.lastNodeID
               && forall j :: 0 <= j < i ==> cfg.graph.edges[j].fromID != st.lastNodeID;
      var r := ResolveNext(cfg, w, st);
      assert LeadsBy(cfg.graph, i, w.clock, st, r.route, r.world.clock);
    }
  }

  // ---- how a turn ends ----

  /** The turn ends the run with this state and error, and the store holds the state if it can be marshalled. */
  ghost predicate EndsIn(cfg: Config, w: World, sid: string, s: Step, st: AgentState, err: Option<Err>) {
    && s.Stop? && s.exit == Returned(st, err)
    && Latest(s.world.store, sid) == if cfg.marshals(st) then Some(st) else Latest(w.store, sid)
  }

  /** With `next` as the successor of node `id`: the loop goes on there, or, if it is none, the run completes at a
      Terminal and fails elsewhere. */
  ghost predicate GoesTo(cfg: Config, w: World, sid: string, id: string, st: AgentState, next: string, s: Step) {
    if next != "" then s.Continue? && s.state == st.(lastNodeID := next) && s.world.store == w.store
    else if id in cfg.graph.terminals then EndsIn(cfg, w, sid, s, st.(status := Completed), None)
    else EndsIn(cfg, w, sid, s, st.(status := Failed), Some(ERR_NO_NEXT_NODE))
  }

  /** The run parks: Paused, without an error; announced if there is a bus. */
  ghost predicate ParksIn(cfg: Config, w: World, sid: string, st: AgentState, s: Step) {
    && EndsIn(cfg, w, sid, s, st.(status := Paused), None)
    && s.world.pauses == w.pauses + if cfg.hasBus then [sid] else []
  }

  /** The state after a reply: the reported one, or the given one if none was reported, one step further than
      the given one and at the same node, whatever the report says about these. */
  function AfterReply(st: AgentState, reported: Option<AgentState>): AgentState {
    (if reported.Some? then reported.value else st).(stepCount := st.stepCount + 1, lastNodeID := st.lastNodeID)
  }

  /** The report loses no artifact the task store was already given. */
  predicate KeepsArtifacts(cfg: Config, st: AgentState, reported: Option<AgentState>) {
    reported.Some? && cfg.hasTaskStore && reported.value.taskID != "" ==> |st.artifacts| <= |reported.value.artifacts|
  }

  function VerdictAt(cfg: Config, w: World, st: AgentState): Verdict<Reply>
    requires Performs(cfg, st)
  {
    Attempts(cfg, st.lastNodeID, st, w.clock).verdict
  }

  function ClockAfter(cfg: Config, w: World, st: AgentState): nat
    requires Performs(cfg, st)
  {
    w.clock + Attempts(cfg, st.lastNodeID, st, w.clock).calls
  }

  /** Nothing but the store and the status of the run is touched. */
  predicate Silent(w: World, w1: World) {
    && w1.clock == w.clock && w1.execs == w.execs && w1.hooks == w.hooks
    && w1.posts == w.posts && w1.statuses == w.statuses && w1.pauses == w.pauses
  }

  // ---- the turn, by what the node answered ----

  /** A turn that reaches no node: a finished state is returned as it is, the budget and an unknown node fail
      it; nothing else is logged. */
  lemma IdleTurn(cfg: Config, w: World, sid: string, st: AgentState)
    requires !Performs(cfg, st)
    ensures var s := Iterate(cfg, w, sid, st);
            && (st.status == Failed || st.status == Completed ==>
                  EndsIn(cfg, w, sid, s, st, if cfg.marshals(st) then None else Some(ERR_MARSHAL)))
            && (st.status != Failed && st.status != Completed && st.stepCount >= cfg.maxSteps ==>
                  EndsIn(cfg, w, sid, s, st.(status := Failed), Some(ERR_MAX_STEPS)))
            && (st.status != Failed && st.status != Completed && st.stepCount < cfg.maxSteps ==>
                  EndsIn(cfg, w, sid, s, st.(status := Failed), Some(ERR_NO_NEXT_NODE)))
            && Silent(w, s.world)
  {
  }

  /** A node that overrides its successor: control goes exactly where it says first, and no router is asked. */
  lemma OverrideTurn(cfg: Config, w: World, sid: string, st: AgentState, reported: Option<AgentState>, nextNodes: seq<string>)
    requires Performs(cfg, st) && VerdictAt(cfg, w, st) == Success(Reply(reported, nextNodes, None))
    requires KeepsArtifacts(cfg, st, reported) && nextNodes != []
    ensures var s := Iterate(cfg, w, sid, st);
            && GoesTo(cfg, w, sid, st.lastNodeID, AfterReply(st, reported), nextNodes[0], s)
            && s.world.clock == ClockAfter(cfg, w, st)
  {
  }

  /** A node that leaves its successor to the graph: control goes where routing the reported state leads, asked
      after the node's last attempt; a router's error fails the run. */
  lemma RoutedTurn(cfg: Config, w: World, sid: string, st: AgentState, reported: Option<AgentState>)
    requires Performs(cfg, st) && VerdictAt(cfg, w, st) == Success(Reply(reported, [], None))
    requires KeepsArtifacts(cfg, st, reported)
    ensures var s := Iterate(cfg, w, sid, st);
            var after := AfterReply(st, reported);
            exists next :: LeadsTo(cfg.graph, ClockAfter(cfg, w, st), after, next, s.world.clock)
                           && match next
                              case Ok(id) => GoesTo(cfg, w, sid, st.lastNodeID, after, id, s)
                              case Fail(e) => EndsIn(cfg, w, sid, s, after.(status := Failed), Some(e))
  {
    var o := OutcomeOf(cfg, w, st);
    var a := Accounted(cfg, w, sid, st);
    ResolvedLeads(cfg, a, o.state);
    assert LeadsTo(cfg.graph, ClockAfter(cfg, w, st), AfterReply(st, reported), ResolveNext(cfg, a, o.state).route,
                   Iterate(cfg, w, sid, st).world.clock);
  }

  /** A node that interrupts parks the session in the state it reported, whatever successor it names. */
  lemma InterruptTurn(cfg: Config, w: World, sid: string, st: AgentState, reported: Option<AgentState>, nextNodes: seq<string>, i: Interrupt)
    requires Performs(cfg, st) && VerdictAt(cfg, w, st) == Success(Reply(reported, nextNodes, Some(i)))
    requires KeepsArtifacts(cfg, st, reported)
    ensures var s := Iterate(cfg, w, sid, st);
            ParksIn(cfg, w, sid, AfterReply(st, reported), s) && s.world.clock == ClockAfter(cfg, w, st)
  {
  }

  /** A node that fails: asking for a human parks the session in the state the node was given, unless the
      announcement finds no cause to tell and panics; any other error fails the run with that error. */
  lemma FailedTurn(cfg: Config, w: World, sid: string, st: AgentState, e: Err)
    requires Performs(cfg, st) && VerdictAt(cfg, w, st) == Failure(e)
    ensures var s := Iterate(cfg, w, sid, st);
            var after := st.(stepCount := st.stepCount + 1);
            && s.world.clock == ClockAfter(cfg, w, st)
            && (!IsCategory(e, HumanNeeded) ==> EndsIn(cfg, w, sid, s, after.(status := Failed), Some(e)))
            && (IsCategory(e, HumanNeeded) ==>
                  if cfg.hasBus && AsAgent(e).value.cause == None then s.Stop? && s.exit == Panicked
                  else ParksIn(cfg, w, sid, after, s))
  {
  }

  /** A nil result, or a report that lost artifacts, panics the loop and stores nothing. */
  lemma PanickingTurn(cfg: Config, w: World, sid: string, st: AgentState)
    requires Performs(cfg, st)
    requires var v := VerdictAt(cfg, w, st);
             || v.NoAttempt? || v == Success(NilReply)
             || (v.Success? && v.value.Reply? && !KeepsArtifacts(cfg, st, v.value.state))
    ensures var s := Iterate(cfg, w, sid, st);
            s.Stop? && s.exit == Panicked && s.world.store == w.store
  {
  }

  ghost predicate PanicsIn(w: World, s: Step) {
    s.Stop? && s.exit == Panicked && s.world.store == w.store
  }

  /** Where a turn goes, by the state it begins with and the node's answer. */
  ghost predicate TurnGoes(cfg: Config, w: World, sid: string, st: AgentState, s: Step) {
    var failed := st.(status := Failed);
    if st.status == Failed || st.status == Completed then
      EndsIn(cfg, w, sid, s, st, if cfg.marshals(st) then None else Some(ERR_MARSHAL)) && Silent(w, s.world)
    else if st.stepCount >= cfg.maxSteps then EndsIn(cfg, w, sid, s, failed, Some(ERR_MAX_STEPS)) && Silent(w, s.world)
    else if st.lastNodeID !in cfg.graph.nodes then
      EndsIn(cfg, w, sid, s, failed, Some(ERR_NO_NEXT_NODE)) && Silent(w, s.world)
    else
      match VerdictAt(cfg, w, st)
      case NoAttempt => PanicsIn(w, s)
      case Failure(e) => FailureGoes(cfg, w, sid, st, e, s)
      case Success(NilReply) => PanicsIn(w, s)
      case Success(Reply(reported, nextNodes, interrupt)) =>
        if !KeepsArtifacts(cfg, st, reported) then PanicsIn(w, s)
        else ReplyGoes(cfg, w, sid, st, AfterReply(st, reported), nextNodes, interrupt, s)
  }

  ghost predicate FailureGoes(cfg: Config, w: World, sid: string, st: AgentState, e: Err, s: Step)
    requires Performs(cfg, st)
  {
    var after := st.(stepCount := st.stepCount + 1);
    && s.world.clock == ClockAfter(cfg, w, st)
    && if !IsCategory(e, HumanNeeded) then EndsIn(cfg, w, sid, s, after.(status := Failed), Some(e))
       else if cfg.hasBus && AsAgent(e).value.cause == None then s.Stop? && s.exit == Panicked
       else ParksIn(cfg, w, sid, after, s)
  }

  ghost predicate ReplyGoes(cfg: Config, w: World, sid: string, st: AgentState, after: AgentState,
      nextNodes: seq<string>, interrupt: Option<Interrupt>, s: Step)
    requires Performs(cfg, st)
  {
    if interrupt.Some? then ParksIn(cfg, w, sid, after, s) && s.world.clock == ClockAfter(cfg, w, st)
    else if nextNodes != [] then
      GoesTo(cfg, w, sid, st.lastNodeID, after, nextNodes[0], s) && s.world.clock == ClockAfter(cfg, w, st)
    else
      exists next :: LeadsTo(cfg.graph, ClockAfter(cfg, w, st), after, next, s.world.clock)
                     && match next
                        case Ok(id) => GoesTo(cfg, w, sid, st.lastNodeID, after, id, s)
                        case Fail(e) => EndsIn(cfg, w, sid, s, after.(status := Failed), Some(e))
  }

  /** Every turn, of every graph and every node: a pause parks in the reported state whatever successor is
      named; an override goes exactly where it says first without asking a router; otherwise control goes where
      the first edge leads, its router asked about the reported state; no successor completes a Terminal and
      fails elsewhere; errors fail, park or panic; and a finished, spent or lost state ends the run at once. */
  lemma TurnGoesWhere(cfg: Config, w: World, sid: string, st: AgentState)
    ensures TurnGoes(cfg, w, sid, st, Iterate(cfg, w, sid, st))
  {
    if !Performs(cfg, st) {
      IdleTurn(cfg, w, sid, st);
    } else {
      match VerdictAt(cfg, w, st)
      case NoAttempt => PanickingTurn(cfg, w, sid, st);
      case Failure(e) => FailedTurn(cfg, w, sid, st, e);
      case Success(NilReply) => PanickingTurn(cfg, w, sid, st);
      case Success(Reply(reported, nextNodes, interrupt)) =>
        if !KeepsArtifacts(cfg, st, reported) {
          PanickingTurn(cfg, w, sid, st);
        } else if interrupt.Some? {
          InterruptTurn(cfg, w, sid, st, reported, nextNodes, interrupt.value);
        } else if nextNodes != [] {
          OverrideTurn(cfg, w, sid, st, reported, nextNodes);
        } else {
          RoutedTurn(cfg, w, sid, st, reported);
        }
    }
  }

  // ---- what a turn logs ----

  /** The logs grew by one execution, one hook bracket, these artifacts and this status, or no status. */
  ghost predicate Logs(w: World, w1: World, sid: string, e: Exec, open: Meta, close: Meta,
      taskID: string, artifacts: seq<Artifact>, told: Option<TaskState>)
  {
    && w1.execs == w.execs + [Tagged(sid, e)]
    && w1.hooks == w.hooks + [open, close]
    && |w1.posts| == |w.posts| + |artifacts| && w1.posts[..|w.posts|] == w.posts
    && (forall i :: 0 <= i < |artifacts| ==> w1.posts[|w.posts| + i] == Tagged(sid, Post(taskID, artifacts[i])))
    && w1.statuses == w.statuses + if told.Some? then [Tagged(sid, StatusWrite(taskID, told.value))] else []
  }

  lemma DecideLogsNothing(cfg: Config, w: World, sid: string, id: string, st: AgentState, o: Outcome)
    ensures var w1 := Decide(cfg, w, sid, id, st, o).world;
            w1.execs == w.execs && w1.hooks == w.hooks && w1.posts == w.posts && w1.statuses == w.statuses
  {
  }

  /** A reply is logged as one execution of the node, opened at the step count it was given and closed one
      later; of a reported state with a task, exactly the new artifacts are posted, and its status told. */
  lemma ReplyLogs(cfg: Config, w: World, sid: string, st: AgentState, reported: Option<AgentState>, nextNodes: seq<string>, i: Option<Interrupt>)
    requires Performs(cfg, st) && VerdictAt(cfg, w, st) == Success(Reply(reported, nextNodes, i))
    requires KeepsArtifacts(cfg, st, reported)
    ensures var id, k := st.lastNodeID, st.stepCount;
            var syncs := reported.Some? && cfg.hasTaskStore && reported.value.taskID != "";
            Logs(w, Iterate(cfg, w, sid, st).world, sid, Exec(id, Attempts(cfg, id, st, w.clock).calls),
                 Meta(BeforeNode, id, k, None), Meta(AfterNode, id, k + 1, None),
                 if syncs then reported.value.taskID else "",
                 if syncs then reported.value.artifacts[|st.artifacts|..] else [],
                 if syncs then Some(TaskStateOf(reported.value.status)) else None)
  {
    DecideLogsNothing(cfg, Accounted(cfg, w, sid, st), sid, st.lastNodeID, st, OutcomeOf(cfg, w, st));
  }

  /** An error is logged as one execution with its error, and told as a failure to the task of the state the
      node was given. */
  lemma FailureLogs(cfg: Config, w: World, sid: string, st: AgentState, e: Err)
    requires Performs(cfg, st) && VerdictAt(cfg, w, st) == Failure(e)
    ensures var id, k := st.lastNodeID, st.stepCount;
            Logs(w, Iterate(cfg, w, sid, st).world, sid, Exec(id, Attempts(cfg, id, st, w.clock).calls),
                 Meta(BeforeNode, id, k, None), Meta(OnError, id, k + 1, Some(e)), st.taskID, [],
                 if st.taskID != "" && cfg.hasTaskStore then Some(TaskFailed) else None)
  {
    DecideLogsNothing(cfg, Accounted(cfg, w, sid, st), sid, st.lastNodeID, st, OutcomeOf(cfg, w, st));
  }

  // ---- Start and Resume ----

  /** Start runs the loop on the given state, or on a new one, set Running and standing at Entry unless it
      already stands somewhere; everything else is as given. */
  lemma StartRunsOn(cfg: Config, w: World, sid: string, initial: Option<AgentState>)
    ensures exists st ::
              && Start(cfg, w, sid, initial) == RunLoop(cfg, w, sid, st)
              && st.status == Running
              && var given := if initial.Some? then initial.value else AgentState([], map[], [], 0, 0, "", Running, "", "", "");
                 && st.lastNodeID == (if given.lastNodeID == "" then cfg.graph.entry else given.lastNodeID)
                 && st == given.(status := st.status, lastNodeID := st.lastNodeID)
  {
    var st := Prepared(cfg, initial);
    assert Start(cfg, w, sid, initial) == RunLoop(cfg, w, sid, st);
  }

  /** The state holds every injected variable and every other one as saved, and is otherwise the saved state,
      running. */
  ghost predicate HoldsInjection(saved: AgentState, injection: map<string, Value>, st: AgentState) {
    && (forall k :: k in injection ==> k in st.variables && st.variables[k] == injection[k])
    && (forall k :: k !in injection ==> (k in st.variables <==> k in saved.variables))
    && (forall k :: k !in injection && k in saved.variables ==> st.variables[k] == saved.variables[k])
    && st.status == Running
    && st == saved.(variables := st.variables, status := Running)
  }

  /** How a Resume of a paused session goes on from the injected state and the answer of routing it. */
  ghost predicate ResumesBy(cfg: Config, w: World, w1: World, sid: string, st: AgentState, next: Attempt<string>, r: Result) {
    match next
    case Fail(e) => r == Result(Refused(e), w1)
    case Ok(id) =>
      if id != "" then r == RunLoop(cfg, w1, sid, st.(lastNodeID := id))
      else if st.lastNodeID in cfg.graph.terminals then
        && r.exit == Returned(st.(status := Completed), None)
        && Latest(r.world.store, sid)
           == (if cfg.marshals(st.(status := Completed)) then Some(st.(status := Completed)) else Latest(w.store, sid))
      else r == Result(Refused(ERR_NO_NEXT_NODE), w1)
  }

  /** Resume of a paused session: the saved state with every injected variable set is routed, and the loop runs
      on exactly that state at the successor of the paused node; without a successor the session completes in
      that state at a Terminal, and is refused elsewhere, as it is when routing fails. */
  lemma ResumeRunsOn(cfg: Config, w: World, sid: string, saved: AgentState, injection: map<string, Value>)
    requires Latest(w.store, sid) == Some(saved) && saved.status == Paused
    ensures exists st, next, clock1 ::
              && HoldsInjection(saved, injection, st)
              && LeadsTo(cfg.graph, w.clock, st, next, clock1)
              && ResumesBy(cfg, w, w.(clock := clock1), sid, st, next, Resume(cfg, w, sid, injection))
  {
    var st := Injected(saved, injection);
    ResolvedLeads(cfg, w, st);
    var q := ResolveNext(cfg, w, st);
    assert HoldsInjection(saved, injection, st);
    assert ResumesBy(cfg, w, w.(clock := q.world.clock), sid, st, q.route, Resume(cfg, w, sid, injection));
  }
}
