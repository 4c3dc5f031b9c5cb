/** The contract of every exit of Start and Resume, and when calls are free of faults. */
module EngineExits {
  import opened Core
  import opened Retry
  import opened Graphs
  import opened Store
  import opened Engine
  import opened EngineRuns

  /** No node ever replies with a state of this status. */
  ghost predicate NeverReports(cfg: Config, s: Status) {
    forall id, k, st :: id in cfg.graph.nodes ==> !RepliesWith(cfg.graph.nodes[id].process(k, st), s)
  }

  predicate RepliesWith(a: Attempt<Reply>, s: Status) {
    a.Ok? && a.value.Reply? && a.value.state.Some? && a.value.state.value.status == s
  }

  /** A reply or an error the loop sees was produced by the node itself, or it is an escalated or
      cancelled retry. */
  lemma VerdictFromNode(cfg: Config, id: string, st: AgentState, clock: nat)
    requires id in cfg.graph.nodes
    ensures var v := Attempts(cfg, id, st, clock).verdict;
            && (v.NoAttempt? <==> cfg.maxAttempts < 1)
            && (v.Success? ==> exists k :: cfg.graph.nodes[id].process(k, st) == Ok(v.value))
            && (v.Failure? && IsCategory(v.err, HumanNeeded) ==>
                  exists k :: cfg.graph.nodes[id].process(k, st) == Fail(v.err))
  {
    var process := cfg.graph.nodes[id].process;
    var fn := Tape(process, st, clock);
    var r := Attempts(cfg, id, st, clock);
    RunIsTheExplanation(cfg.maxAttempts, fn, Shift(cfg.cancelled, clock), r);
    if cfg.maxAttempts >= 1 {
      assert fn(r.calls - 1) == process(clock + (r.calls - 1), st);
    }
  }

  // ---- errors and statuses ----

  /** Nodes leave failing to the engine, and completing too unless every state can be marshalled: otherwise the
      save of a state a node completed itself may return an error beside it. */
  ghost predicate ErrorsAreClear(cfg: Config) {
    NeverReports(cfg, Failed) && (NeverReports(cfg, Completed) || forall s :: cfg.marshals(s))
  }

  ghost predicate NeverOverrides(cfg: Config) {
    forall id, k, st :: id in cfg.graph.nodes ==> !Overrides(cfg.graph.nodes[id].process(k, st))
  }

  predicate Overrides(a: Attempt<Reply>) {
    a.Ok? && a.value.Reply? && a.value.nextNodes != []
  }

  predicate OverridesWithNone(a: Attempt<Reply>) {
    Overrides(a) && a.value.nextNodes[0] == ""
  }

  /** This node may override its successor with none. */
  ghost predicate MayEndItself(cfg: Config, id: string) {
    id in cfg.graph.nodes && exists k, st :: OverridesWithNone(cfg.graph.nodes[id].process(k, st))
  }

  /** Routing the state led nowhere: no edge leaves its node, or the first one leads to no node, or that one's
      router, asked about this state, answered so. */
  ghost predicate RoutedNowhere(cfg: Config, st: AgentState) {
    match FirstEdge(cfg.graph.edges, st.lastNodeID)
    case None => true
    case Some(e) => if e.isCond then exists k :: e.router(k, st) == Ok("") else e.toID == ""
  }

  /** The completed state stands at a Terminal, and its successor was resolved to none. */
  ghost predicate CompletedOk(cfg: Config, done: AgentState) {
    && done.lastNodeID in cfg.graph.terminals
    && (MayEndItself(cfg, done.lastNodeID)
        || exists st: AgentState :: done == st.WithStatus(Completed) && RoutedNowhere(cfg, st))
  }

  /** What an exit says: an error exactly with a Failed status; Completed only at a Terminal without a resolved
      successor, unless a node claimed completion itself. */
  ghost predicate ExitOk(cfg: Config, x: Exit) {
    x.Returned? ==>
      && (x.err == None <==> x.state.status != Failed)
      && (NeverReports(cfg, Completed) && x.state.status == Completed ==> CompletedOk(cfg, x.state))
  }

  ghost predicate StepExitOk(cfg: Config, s: Step) {
    match s
    case Stop(x, _) => ExitOk(cfg, x)
    case Continue(st, _) => st.status != Failed && (NeverReports(cfg, Completed) ==> st.status != Completed)
  }

  lemma RouteExitOk(cfg: Config, w: World, sid: string, id: string, st: AgentState, nextNodes: seq<string>)
    requires st.lastNodeID == id && st.status != Failed
    requires NeverReports(cfg, Completed) ==> st.status != Completed
    requires nextNodes != [] && nextNodes[0] == "" ==> MayEndItself(cfg, id)
    ensures StepExitOk(cfg, RouteOn(cfg, w, sid, id, st, nextNodes))
  {
    var r := ResolveNext(cfg, w, st);
    if nextNodes == [] && r.route == Ok("") {
      assert RoutedNowhere(cfg, st);
    }
  }

  lemma TurnExitOk(cfg: Config, w: World, sid: string, st: AgentState)
    requires ErrorsAreClear(cfg)
    requires st.status != Failed
    requires NeverReports(cfg, Completed) ==> st.status != Completed
    ensures StepExitOk(cfg, Iterate(cfg, w, sid, st))
  {
    if st.status != Completed && st.stepCount < cfg.maxSteps && st.lastNodeID in cfg.graph.nodes {
      var id := st.lastNodeID;
      var ran := Attempts(cfg, id, st, w.clock);
      var o := Perform(cfg, id, st, ran.verdict);
      VerdictFromNode(cfg, id, st, w.clock);
      if o.Replied? {
        assert o.state.lastNodeID == id;
        assert o.state.status != Failed && (NeverReports(cfg, Completed) ==> o.state.status != Completed);
        if o.nextNodes != [] && o.nextNodes[0] == "" {
          var k :| cfg.graph.nodes[id].process(k, st) == Ok(ran.verdict.value);
          assert OverridesWithNone(cfg.graph.nodes[id].process(k, st));
        }
        if o.interrupt == None {
          RouteExitOk(cfg, Account(cfg, w, sid, id, st, ran.calls, o), sid, id, o.state, o.nextNodes);
        }
      }
    }
  }

  lemma {:induction false} RunExitOk(cfg: Config, w: World, sid: string, st: AgentState)
    requires ErrorsAreClear(cfg)
    requires st.status != Failed
    requires NeverReports(cfg, Completed) ==> st.status != Completed
    ensures ExitOk(cfg, RunLoop(cfg, w, sid, st).exit)
    decreases StepsLeft(cfg, st)
  {
    TurnExitOk(cfg, w, sid, st);
    TurnUsesOneStep(cfg, w, sid, st);
    match Iterate(cfg, w, sid, st) {
      case Stop(_, _) =>
      case Continue(st1, w1) => RunExitOk(cfg, w1, sid, st1);
    }
  }

  /** Start, unless it faulted: the result is settled and is the session's latest snapshot; if nodes never
      report Failed the error is nil exactly when the session paused or completed. */
  lemma StartContract(cfg: Config, w: World, sid: string, initial: Option<AgentState>)
    ensures var r := Start(cfg, w, sid, initial);
            && (r.world.faults == w.faults ==> Persisted(r.exit, r.world, sid))
            && (ErrorsAreClear(cfg) ==> ExitOk(cfg, r.exit))
  {
    RunEffect(cfg, w, sid, Prepared(cfg, initial));
    if ErrorsAreClear(cfg) {
      RunExitOk(cfg, w, sid, Prepared(cfg, initial));
    }
  }

  /** Resume of a session that is not paused changes nothing; a Resume that is refused (no session, a
      router error, no successor) leaves every snapshot as it was, so the session stays Paused; any other
      Resume ends like Start. */
  lemma ResumeContract(cfg: Config, w: World, sid: string, injection: map<string, Value>)
    ensures var r := Resume(cfg, w, sid, injection);
            match Latest(w.store, sid)
            case None => r == Result(Refused(ERR_SESSION_NOT_FOUND), w)
            case Some(saved) =>
              && (saved.status != Paused ==> r == Result(Returned(saved, None), w))
              && (r.exit.Refused? ==> saved.status == Paused && r.world == w.(clock := r.world.clock))
              && (!r.exit.Refused? && r.world.faults == w.faults && saved.status == Paused ==> Persisted(r.exit, r.world, sid))
              && (ErrorsAreClear(cfg) && saved.status == Paused ==> ExitOk(cfg, r.exit))
  {
    var l := Latest(w.store, sid);
    if l.Some? && l.value.status == Paused {
      ResumePausedContract(cfg, w, sid, l.value, injection);
    }
  }

  lemma ResumePausedContract(cfg: Config, w: World, sid: string, saved: AgentState, injection: map<string, Value>)
    requires Latest(w.store, sid) == Some(saved) && saved.status == Paused
    ensures var r := Resume(cfg, w, sid, injection);
            && (r.exit.Refused? ==> r.world == w.(clock := r.world.clock))
            && (!r.exit.Refused? && r.world.faults == w.faults ==> Persisted(r.exit, r.world, sid))
            && (ErrorsAreClear(cfg) ==> ExitOk(cfg, r.exit))
  {
    var st := Injected(saved, injection);
    var r := ResolveNext(cfg, w, st);
    if r.route.Ok? && r.route.value != "" {
      RunEffect(cfg, r.world, sid, st.(lastNodeID := r.route.value));
      if ErrorsAreClear(cfg) {
        RunExitOk(cfg, r.world, sid, st.(lastNodeID := r.route.value));
      }
    } else if r.route.Ok? {
      assert RoutedNowhere(cfg, st);
    }
  }

  // ---- faults ----

  /** A node that never panics the loop: no nil replies, no reply with fewer artifacts than the task store
      has been given, and a cause in every request for a human when pauses are announced. */
  ghost predicate Tame(cfg: Config, process: (nat, AgentState) -> Attempt<Reply>) {
    forall k, st :: TameAttempt(cfg, st, process(k, st))
  }

  predicate TameAttempt(cfg: Config, st: AgentState, a: Attempt<Reply>) {
    match a
    case Fail(e) => IsCategory(e, HumanNeeded) && cfg.hasBus ==> AsAgent(e).value.cause.Some?
    case Ok(NilReply) => false
    case Ok(Reply(None, _, _)) => true
    case Ok(Reply(Some(s), _, _)) => cfg.hasTaskStore && s.taskID != "" ==> |st.artifacts| <= |s.artifacts|
  }

  ghost predicate FaultFree(cfg: Config) {
    && cfg.maxAttempts >= 1
    && (forall s :: cfg.marshals(s))
    && (forall id :: id in cfg.graph.nodes ==> Tame(cfg, cfg.graph.nodes[id].process))
  }

  lemma TurnFaultFree(cfg: Config, w: World, sid: string, st: AgentState)
    requires FaultFree(cfg)
    ensures Iterate(cfg, w, sid, st).world.faults == w.faults
  {
    if st.lastNodeID in cfg.graph.nodes {
      var id := st.lastNodeID;
      VerdictFromNode(cfg, id, st, w.clock);
      var ran := Attempts(cfg, id, st, w.clock);
      assert ran.verdict.Success? ==> TameAttempt(cfg, st, Ok(ran.verdict.value));
      assert ran.verdict.Failure? && IsCategory(ran.verdict.err, HumanNeeded) ==> TameAttempt(cfg, st, Fail(ran.verdict.err));
      var o := Perform(cfg, id, st, ran.verdict);
      assert !o.Crash?;
      DecideFaultFree(cfg, Account(cfg, w, sid, id, st, ran.calls, o), sid, id, st, o);
    }
  }

  lemma DecideFaultFree(cfg: Config, w: World, sid: string, id: string, st: AgentState, o: Outcome)
    requires FaultFree(cfg)
    requires o.Errored? && IsCategory(o.err, HumanNeeded) && cfg.hasBus ==> AsAgent(o.err).value.cause.Some?
    ensures Decide(cfg, w, sid, id, st, o).world.faults == w.faults
  {
  }

  lemma {:induction false} RunFaultFree(cfg: Config, w: World, sid: string, st: AgentState)
    requires FaultFree(cfg)
    ensures RunLoop(cfg, w, sid, st).world.faults == w.faults
    decreases StepsLeft(cfg, st)
  {
    TurnFaultFree(cfg, w, sid, st);
    TurnUsesOneStep(cfg, w, sid, st);
    match Iterate(cfg, w, sid, st) {
      case Stop(_, _) =>
      case Continue(st1, w1) => RunFaultFree(cfg, w1, sid, st1);
    }
  }

  lemma CallFaultFree(cfg: Config, w: World, c: Call)
    requires FaultFree(cfg)
    ensures Apply(cfg, w, c).world.faults == w.faults
  {
    match c
    case StartCall(sid, initial) => RunFaultFree(cfg, w, sid, Prepared(cfg, initial));
    case ResumeCall(sid, injection) =>
      var l := Latest(w.store, sid);
      if l.Some? && l.value.status == Paused {
        var st := Injected(l.value, injection);
        var r := ResolveNext(cfg, w, st);
        if r.route.Ok? && r.route.value != "" {
          RunFaultFree(cfg, r.world, sid, st.(lastNodeID := r.route.value));
        }
      }
  }

  /** An engine with tame nodes, at least one attempt per node and a store that takes every snapshot never
      panics and never loses a snapshot, whatever calls are made. */
  lemma {:induction false} NoFaults(cfg: Config, w: World, calls: seq<Call>)
    requires FaultFree(cfg)
    ensures After(cfg, w, calls).faults == w.faults
  {
    if calls != [] {
      NoFaults(cfg, w, calls[..|calls| - 1]);
      CallFaultFree(cfg, After(cfg, w, calls[..|calls| - 1]), calls[|calls| - 1]);
    }
  }

  /** Without a permitted attempt every run that reaches a node panics there, having executed nothing. */
  lemma NoAttemptsPanics(cfg: Config, w: World, sid: string, st: AgentState)
    requires cfg.maxAttempts < 1
    requires st.status != Failed && st.status != Completed && st.stepCount < cfg.maxSteps
    requires st.lastNodeID in cfg.graph.nodes
    ensures RunLoop(cfg, w, sid, st).exit == Panicked
    ensures RunLoop(cfg, w, sid, st).world.store == w.store
  {
    VerdictFromNode(cfg, st.lastNodeID, st, w.clock);
  }
}
