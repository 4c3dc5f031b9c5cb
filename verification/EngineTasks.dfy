/** What the engine tells the task store. A task's status follows what nodes report, not how the session
    ends. */
module EngineTasks {
  import opened Core
  import opened Retry
  import opened Graphs
  import opened Store
  import opened Engine
  import opened EngineExits
  import EngineRuns

  predicate ReportsTask(a: Attempt<Reply>, t: TaskState) {
    a.Ok? && a.value.Reply? && a.value.state.Some? && TaskStateOf(a.value.state.value.status) == t
  }

  /** Some node, at some point, replies with a state of this task status. */
  ghost predicate Reported(cfg: Config, t: TaskState) {
    exists id, k, st :: id in cfg.graph.nodes && ReportsTask(cfg.graph.nodes[id].process(k, st), t)
  }

  /** From `w` to `w1` at most one status was written per executed node, and each is `failed` or one that a
      node reported. */
  ghost predicate WroteOk(cfg: Config, w: World, w1: World) {
    && |w.statuses| <= |w1.statuses| && w1.statuses[..|w.statuses|] == w.statuses
    && |w.execs| <= |w1.execs| && |w1.statuses| - |w.statuses| <= |w1.execs| - |w.execs|
    && forall i :: |w.statuses| <= i < |w1.statuses| ==>
         w1.statuses[i].item.state == TaskFailed || Reported(cfg, w1.statuses[i].item.state)
  }

  lemma WroteOkTransitive(cfg: Config, a: World, b: World, c: World)
    requires WroteOk(cfg, a, b) && WroteOk(cfg, b, c)
    ensures WroteOk(cfg, a, c)
  {
    assert c.statuses[..|a.statuses|] == c.statuses[..|b.statuses|][..|a.statuses|];
    forall i | |a.statuses| <= i < |b.statuses| ensures c.statuses[i] == b.statuses[i] {
      assert c.statuses[i] == c.statuses[..|b.statuses|][i];
    }
  }

  lemma DecideWritesNothing(cfg: Config, w: World, sid: string, id: string, st: AgentState, o: Outcome)
    ensures var w1 := Decide(cfg, w, sid, id, st, o).world;
            w1.statuses == w.statuses && w1.execs == w.execs
  {
  }

  lemma TurnWrites(cfg: Config, w: World, sid: string, st: AgentState)
    ensures WroteOk(cfg, w, Iterate(cfg, w, sid, st).world)
  {
    if st.status != Failed && st.status != Completed && st.stepCount < cfg.maxSteps && st.lastNodeID in cfg.graph.nodes {
      var id := st.lastNodeID;
      var ran := Attempts(cfg, id, st, w.clock);
      var o := Perform(cfg, id, st, ran.verdict);
      VerdictFromNode(cfg, id, st, w.clock);
      DecideWritesNothing(cfg, Account(cfg, w, sid, id, st, ran.calls, o), sid, id, st, o);
      if o.Replied? && o.added.Some? {
        var k :| cfg.graph.nodes[id].process(k, st) == Ok(ran.verdict.value);
        assert ReportsTask(cfg.graph.nodes[id].process(k, st), TaskStateOf(o.state.status));
      }
    }
  }

  lemma {:induction false} RunWrites(cfg: Config, w: World, sid: string, st: AgentState)
    ensures WroteOk(cfg, w, RunLoop(cfg, w, sid, st).world)
    decreases StepsLeft(cfg, st)
  {
    TurnWrites(cfg, w, sid, st);
    TurnUsesOneStep(cfg, w, sid, st);
    match Iterate(cfg, w, sid, st) {
      case Stop(_, _) =>
      case Continue(st1, w1) =>
        RunWrites(cfg, w1, sid, st1);
        WroteOkTransitive(cfg, w, w1, RunLoop(cfg, w1, sid, st1).world);
    }
  }

  lemma CallWrites(cfg: Config, w: World, c: Call)
    ensures WroteOk(cfg, w, Apply(cfg, w, c).world)
  {
    match c
    case StartCall(sid, initial) => RunWrites(cfg, w, sid, Prepared(cfg, initial));
    case ResumeCall(sid, injection) =>
      var l := Latest(w.store, sid);
      if l.Some? && l.value.status == Paused {
        var st := Injected(l.value, injection);
        var r := ResolveNext(cfg, w, st);
        if r.route.Ok? && r.route.value != "" {
          RunWrites(cfg, r.world, sid, st.(lastNodeID := r.route.value));
        }
      }
  }

  lemma {:induction false} CallsWrite(cfg: Config, w: World, calls: seq<Call>)
    ensures WroteOk(cfg, w, After(cfg, w, calls))
  {
    if calls != [] {
      var before := calls[..|calls| - 1];
      CallsWrite(cfg, w, before);
      CallWrites(cfg, After(cfg, w, before), calls[|calls| - 1]);
      WroteOkTransitive(cfg, w, After(cfg, w, before), After(cfg, w, calls));
    }
  }

  /** The engine announces no completion and no pause of its own: unless a node itself reports one, no call
      ever tells the task store that a task completed or needs input, however many sessions do so. */
  lemma TaskStatusesFollowNodes(cfg: Config, w: World, calls: seq<Call>, i: nat)
    requires |w.statuses| <= i < |After(cfg, w, calls).statuses|
    ensures var t := After(cfg, w, calls).statuses[i].item.state;
            && (NeverReports(cfg, Completed) ==> t != TaskCompleted)
            && (NeverReports(cfg, Paused) && NeverReports(cfg, WaitingHuman) ==> t != InputRequired)
  {
    CallsWrite(cfg, w, calls);
    var t := After(cfg, w, calls).statuses[i].item.state;
    if t != TaskFailed {
      var id, k, st :| id in cfg.graph.nodes && ReportsTask(cfg.graph.nodes[id].process(k, st), t);
      assert NeverReports(cfg, Completed) ==> !RepliesWith(cfg.graph.nodes[id].process(k, st), Completed);
      assert NeverReports(cfg, Paused) ==> !RepliesWith(cfg.graph.nodes[id].process(k, st), Paused);
      assert NeverReports(cfg, WaitingHuman) ==> !RepliesWith(cfg.graph.nodes[id].process(k, st), WaitingHuman);
    }
  }

  // ---- the last word of a run ----

  /** Every reply keeps the task of the state the node was given. */
  ghost predicate KeepsTask(cfg: Config) {
    forall id, k, st :: id in cfg.graph.nodes ==> SameTask(st, cfg.graph.nodes[id].process(k, st))
  }

  predicate SameTask(st: AgentState, a: Attempt<Reply>) {
    a.Ok? && a.value.Reply? && a.value.state.Some? ==> a.value.state.value.taskID == st.taskID
  }

  /** Does the engine tell the task store about this outcome? */
  predicate Tells(cfg: Config, st: AgentState, o: Outcome) {
    NewStatuses(cfg, "", st, o) != []
  }

  function Told(o: Outcome): TaskState {
    if o.Replied? then TaskStateOf(o.state.status) else TaskFailed
  }

  /** The outcome of the last execution of the run that the task store is told about. */
  function LastReport(cfg: Config, w: World, sid: string, st: AgentState): Option<Outcome>
    decreases StepsLeft(cfg, st)
  {
    if !Performs(cfg, st) then None
    else
      var o := OutcomeOf(cfg, w, st);
      var own := if Tells(cfg, st, o) then Some(o) else None;
      TurnUsesOneStep(cfg, w, sid, st);
      match Iterate(cfg, w, sid, st)
      case Stop(_, _) => own
      case Continue(st1, w1) =>
        var later := LastReport(cfg, w1, sid, st1);
        if later.Some? then later else own
  }

  /** What a stretch of a run whose last report is `report` has written, and how it returned if it ended in
      that report's error. */
  predicate Reports(w: World, w1: World, sid: string, taskID: string, report: Option<Outcome>) {
    match report
    case None => w1.statuses == w.statuses
    case Some(o) =>
      !o.Crash? && |w1.statuses| > |w.statuses|
      && w1.statuses[|w1.statuses| - 1] == Tagged(sid, StatusWrite(taskID, Told(o)))
  }

  /** An error ends the run: Paused if it asks for a human, else Failed. */
  predicate EndsBy(report: Option<Outcome>, x: Exit) {
    report.Some? && report.value.Errored? ==>
      x.Returned? && x.state.status == if IsCategory(report.value.err, HumanNeeded) then Paused else Failed
  }

  lemma TurnReports(cfg: Config, w: World, sid: string, st: AgentState)
    requires cfg.hasTaskStore && KeepsTask(cfg) && st.taskID != "" && Performs(cfg, st)
    requires var s := Iterate(cfg, w, sid, st);
             s.Stop? ==> !s.exit.Panicked?
    ensures var o := OutcomeOf(cfg, w, st);
            var s := Iterate(cfg, w, sid, st);
            var own := if Tells(cfg, st, o) then Some(o) else None;
            && Reports(w, s.world, sid, st.taskID, own)
            && (s.Continue? ==> s.state.taskID == st.taskID && !o.Errored?)
            && (s.Stop? ==> EndsBy(own, s.exit))
  {
    var id := st.lastNodeID;
    var o := OutcomeOf(cfg, w, st);
    VerdictFromNode(cfg, id, st, w.clock);
    DecideWritesNothing(cfg, Accounted(cfg, w, sid, st), sid, id, st, o);
    if o.Replied? {
      var v := Attempts(cfg, id, st, w.clock).verdict;
      var k :| cfg.graph.nodes[id].process(k, st) == Ok(v.value);
      assert SameTask(st, cfg.graph.nodes[id].process(k, st));
    }
  }

  lemma {:induction false} RunReports(cfg: Config, w: World, sid: string, st: AgentState)
    requires cfg.hasTaskStore && KeepsTask(cfg) && st.taskID != ""
    requires !RunLoop(cfg, w, sid, st).exit.Panicked?
    ensures var r := RunLoop(cfg, w, sid, st);
            var report := LastReport(cfg, w, sid, st);
            Reports(w, r.world, sid, st.taskID, report) && EndsBy(report, r.exit)
    decreases StepsLeft(cfg, st)
  {
    TurnUsesOneStep(cfg, w, sid, st);
    if Performs(cfg, st) {
      TurnReports(cfg, w, sid, st);
      match Iterate(cfg, w, sid, st) {
        case Stop(_, _) =>
        case Continue(st1, w1) => RunReports(cfg, w1, sid, st1);
      }
    }
  }

  lemma {:induction false} RunReturnsSettled(cfg: Config, w: World, sid: string, st: AgentState)
    ensures var x := RunLoop(cfg, w, sid, st).exit;
            x.Panicked? || (x.Returned? && EngineRuns.Settled(x.state.status))
    decreases StepsLeft(cfg, st)
  {
    TurnUsesOneStep(cfg, w, sid, st);
    match Iterate(cfg, w, sid, st) {
      case Stop(_, _) =>
      case Continue(st1, w1) => RunReturnsSettled(cfg, w1, sid, st1);
    }
  }

  /** Every reply carries a state. */
  ghost predicate AlwaysReports(cfg: Config) {
    forall id, k, st :: id in cfg.graph.nodes ==> CarriesState(cfg.graph.nodes[id].process(k, st))
  }

  predicate CarriesState(a: Attempt<Reply>) {
    a.Ok? && a.value.Reply? ==> a.value.state.Some?
  }

  /** When every reply carries a state, the last report is that of the last node executed. */
  lemma {:induction false} LastReportIsLastNode(cfg: Config, w: World, sid: string, st: AgentState)
    requires cfg.hasTaskStore && KeepsTask(cfg) && AlwaysReports(cfg) && st.taskID != ""
    requires !RunLoop(cfg, w, sid, st).exit.Panicked?
    ensures LastReport(cfg, w, sid, st).Some? <==> Performs(cfg, st)
    ensures Performs(cfg, st) ==>
              match Iterate(cfg, w, sid, st)
              case Stop(_, _) => LastReport(cfg, w, sid, st) == Some(OutcomeOf(cfg, w, st))
              case Continue(st1, w1) =>
                LastReport(cfg, w, sid, st)
                == if Performs(cfg, st1) then LastReport(cfg, w1, sid, st1) else Some(OutcomeOf(cfg, w, st))
    decreases StepsLeft(cfg, st)
  {
    TurnUsesOneStep(cfg, w, sid, st);
    if Performs(cfg, st) {
      TurnReports(cfg, w, sid, st);
      TurnTells(cfg, w, sid, st);
      match Iterate(cfg, w, sid, st) {
        case Stop(_, _) =>
        case Continue(st1, w1) => LastReportIsLastNode(cfg, w1, sid, st1);
      }
    }
  }

  lemma TurnTells(cfg: Config, w: World, sid: string, st: AgentState)
    requires cfg.hasTaskStore && KeepsTask(cfg) && AlwaysReports(cfg) && st.taskID != "" && Performs(cfg, st)
    requires !OutcomeOf(cfg, w, st).Crash?
    ensures Tells(cfg, st, OutcomeOf(cfg, w, st))
  {
    var id := st.lastNodeID;
    var o := OutcomeOf(cfg, w, st);
    VerdictFromNode(cfg, id, st, w.clock);
    if o.Replied? {
      var v := Attempts(cfg, id, st, w.clock).verdict;
      var k :| cfg.graph.nodes[id].process(k, st) == Ok(v.value);
      assert SameTask(st, cfg.graph.nodes[id].process(k, st)) && CarriesState(cfg.graph.nodes[id].process(k, st));
    }
  }

  /** Does the task store, after the run, show what the run's exit says? For every run that does not panic, of
      a session with a task that nodes keep: exactly when the last node the store was told about failed
      without asking for a human, or reported a status that reads like the exit's. In particular a session
      that waits for a human after an error shows a failed task. */
  lemma TaskMirrorsExitIff(cfg: Config, w: World, sid: string, st: AgentState)
    requires cfg.hasTaskStore && KeepsTask(cfg) && st.taskID != ""
    requires !RunLoop(cfg, w, sid, st).exit.Panicked?
    ensures var r := RunLoop(cfg, w, sid, st);
            var report := LastReport(cfg, w, sid, st);
            && r.exit.Returned?
            && (report == None <==> |r.world.statuses| == |w.statuses|)
            && (report.Some? ==>
                  && |r.world.statuses| > |w.statuses|
                  && var last := r.world.statuses[|r.world.statuses| - 1];
                     && last.session == sid && last.item.taskID == st.taskID
                     && (last.item.state == TaskStateOf(r.exit.state.status) <==>
                           if report.value.Errored? then !IsCategory(report.value.err, HumanNeeded)
                           else report.value.Replied?
                                && TaskStateOf(report.value.state.status) == TaskStateOf(r.exit.state.status)))
  {
    RunReports(cfg, w, sid, st);
    RunReturnsSettled(cfg, w, sid, st);
  }

  /** Nodes leave every status to the engine. */
  ghost predicate ReportsRunning(cfg: Config) {
    forall id, k, st :: id in cfg.graph.nodes ==> OnlyRunning(cfg.graph.nodes[id].process(k, st))
  }

  predicate OnlyRunning(a: Attempt<Reply>) {
    a.Ok? && a.value.Reply? && a.value.state.Some? ==> a.value.state.value.status == Running
  }

  lemma {:induction false} ReportWasRunning(cfg: Config, w: World, sid: string, st: AgentState)
    requires ReportsRunning(cfg)
    ensures var report := LastReport(cfg, w, sid, st);
            report.Some? && report.value.Replied? ==> report.value.state.status == Running
    decreases StepsLeft(cfg, st)
  {
    TurnUsesOneStep(cfg, w, sid, st);
    if Performs(cfg, st) {
      var o := OutcomeOf(cfg, w, st);
      VerdictFromNode(cfg, st.lastNodeID, st, w.clock);
      if o.Replied? && Tells(cfg, st, o) {
        var v := Attempts(cfg, st.lastNodeID, st, w.clock).verdict;
        var k :| cfg.graph.nodes[st.lastNodeID].process(k, st) == Ok(v.value);
        assert OnlyRunning(cfg.graph.nodes[st.lastNodeID].process(k, st));
      }
      match Iterate(cfg, w, sid, st) {
        case Stop(_, _) =>
        case Continue(st1, w1) => ReportWasRunning(cfg, w1, sid, st1);
      }
    }
  }

  /** If nodes leave every status to the engine, the task mirrors the session in one case only: a node failed
      for good. Completed, paused and otherwise failed sessions show a task still working, or a failed one
      behind a pause. */
  lemma OnlyNodeFailuresMirror(cfg: Config, w: World, sid: string, st: AgentState)
    requires cfg.hasTaskStore && KeepsTask(cfg) && ReportsRunning(cfg) && st.taskID != ""
    requires !RunLoop(cfg, w, sid, st).exit.Panicked?
    requires LastReport(cfg, w, sid, st).Some?
    ensures var r := RunLoop(cfg, w, sid, st);
            var o := LastReport(cfg, w, sid, st).value;
            && r.exit.Returned? && |r.world.statuses| > 0
            && (r.world.statuses[|r.world.statuses| - 1].item.state == TaskStateOf(r.exit.state.status)
                <==> o.Errored? && !IsCategory(o.err, HumanNeeded))
  {
    TaskMirrorsExitIff(cfg, w, sid, st);
    RunReturnsSettled(cfg, w, sid, st);
    ReportWasRunning(cfg, w, sid, st);
  }
}
