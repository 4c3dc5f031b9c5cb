/** What holds of every run of the engine and of every Start and Resume: termination, how much is executed,
    and what is persisted. */
module EngineRuns {
  import opened Core
  import opened Retry
  import opened Store
  import opened Engine

  ghost predicate OthersUntouched(c: Contents, c1: Contents, sid: string) {
    forall other :: other != sid ==> Latest(c1, other) == Latest(c, other)
  }

  predicate Settled(s: Status) {
    s == Completed || s == Failed || s == Paused
  }

  /** A fault-free exit returns a settled state that is the session's latest snapshot. */
  ghost predicate Persisted(x: Exit, w: World, sid: string) {
    x.Returned? && Settled(x.state.status) && Latest(w.store, sid) == Some(x.state)
  }

  /** `s` is how a turn ends that stood in world `w` with a state of step count `k`. */
  ghost predicate Ends(w: World, sid: string, k: int, s: Step) {
    && s.world.execs == w.execs
    && s.world.faults >= w.faults
    && OthersUntouched(w.store, s.world.store, sid)
    && (s.Continue? ==> s.world.store == w.store && s.world.faults == w.faults && s.state.stepCount == k)
    && (s.Stop? ==> !s.exit.Refused?)
    && (s.Stop? && s.world.faults == w.faults ==> Persisted(s.exit, s.world, sid) && s.exit.state.stepCount == k)
  }

  lemma EndEnds(cfg: Config, w: World, sid: string, st: AgentState, err: Option<Err>)
    requires Settled(st.status)
    ensures Ends(w, sid, st.stepCount, End(cfg, w, sid, st, err))
  {
  }

  lemma ParkEnds(cfg: Config, w: World, sid: string, st: AgentState, silent: bool)
    ensures Ends(w, sid, st.stepCount, Park(cfg, w, sid, st, silent))
  {
  }

  lemma ProceedEnds(cfg: Config, w: World, sid: string, id: string, st: AgentState, next: string)
    ensures Ends(w, sid, st.stepCount, Proceed(cfg, w, sid, id, st, next))
  {
    EndEnds(cfg, w, sid, st.WithStatus(Completed), None);
    EndEnds(cfg, w, sid, st.WithStatus(Failed), Some(ERR_NO_NEXT_NODE));
  }

  lemma RouteEnds(cfg: Config, w: World, sid: string, id: string, st: AgentState, nextNodes: seq<string>)
    ensures Ends(w, sid, st.stepCount, RouteOn(cfg, w, sid, id, st, nextNodes))
  {
    if nextNodes != [] {
      ProceedEnds(cfg, w, sid, id, st, nextNodes[0]);
    } else {
      var r := ResolveNext(cfg, w, st);
      match r.route
      case Fail(e) => EndEnds(cfg, r.world, sid, st.WithStatus(Failed), Some(e));
      case Ok(next) => ProceedEnds(cfg, r.world, sid, id, st, next);
    }
  }

  lemma DecideEnds(cfg: Config, w: World, sid: string, id: string, st: AgentState, o: Outcome)
    requires o.Replied? ==> o.state.stepCount == st.stepCount + 1
    requires !o.Crash?
    ensures Ends(w, sid, st.stepCount + 1, Decide(cfg, w, sid, id, st, o))
  {
    match o
    case Errored(e) =>
      var st1 := st.(stepCount := st.stepCount + 1);
      if IsCategory(e, HumanNeeded) {
        ParkEnds(cfg, w, sid, st1, AsAgent(e).value.cause == None);
      } else {
        EndEnds(cfg, w, sid, st1.WithStatus(Failed), Some(e));
      }
    case Replied(s, _, nextNodes, interrupt) =>
      if interrupt.Some? {
        ParkEnds(cfg, w, sid, s, false);
      } else {
        RouteEnds(cfg, w, sid, id, s, nextNodes);
      }
  }

  // ---- one turn ----

  predicate CallsWithinCap(cfg: Config, e: Exec) {
    e.calls <= if cfg.maxAttempts > 0 then cfg.maxAttempts else 0
  }

  /** Log `b` is log `a` plus executions of this session, none above the attempt cap. */
  ghost predicate Grew(cfg: Config, a: seq<Tagged<Exec>>, b: seq<Tagged<Exec>>, sid: string) {
    && |a| <= |b| && b[..|a|] == a
    && forall i :: |a| <= i < |b| ==> b[i].session == sid && CallsWithinCap(cfg, b[i].item)
  }

  /** What a turn may do: at most one execution, charged to the step count, which never passes maxSteps. */
  ghost predicate TurnOk(cfg: Config, w: World, sid: string, st: AgentState, s: Step) {
    var n := |s.world.execs| - |w.execs|;
    && Grew(cfg, w.execs, s.world.execs, sid) && n <= 1
    && s.world.faults >= w.faults
    && OthersUntouched(w.store, s.world.store, sid)
    && (n == 1 ==> st.stepCount < cfg.maxSteps)
    && (s.Continue? ==> n == 1 && s.world.store == w.store && s.world.faults == w.faults
                        && s.state.stepCount == st.stepCount + 1)
    && (s.Stop? ==> !s.exit.Refused?)
    && (s.Stop? && s.world.faults == w.faults ==>
          Persisted(s.exit, s.world, sid) && s.exit.state.stepCount == st.stepCount + n)
  }

  lemma AttemptsWithinCap(cfg: Config, id: string, st: AgentState, clock: nat)
    requires id in cfg.graph.nodes
    ensures CallsWithinCap(cfg, Exec(id, Attempts(cfg, id, st, clock).calls))
  {
    CallsBounded(cfg.maxAttempts, Tape(cfg.graph.nodes[id].process, st, clock), Shift(cfg.cancelled, clock), 0);
  }

  lemma TurnEffect(cfg: Config, w: World, sid: string, st: AgentState)
    ensures TurnOk(cfg, w, sid, st, Iterate(cfg, w, sid, st))
  {
    if st.status == Failed || st.status == Completed {
      EndEnds(cfg, w, sid, st, if cfg.marshals(st) then None else Some(ERR_MARSHAL));
    } else if st.stepCount >= cfg.maxSteps {
      EndEnds(cfg, w, sid, st.WithStatus(Failed), Some(ERR_MAX_STEPS));
    } else if st.lastNodeID !in cfg.graph.nodes {
      EndEnds(cfg, w, sid, st.WithStatus(Failed), Some(ERR_NO_NEXT_NODE));
    } else {
      var id := st.lastNodeID;
      var ran := Attempts(cfg, id, st, w.clock);
      var o := Perform(cfg, id, st, ran.verdict);
      AttemptsWithinCap(cfg, id, st, w.clock);
      if !o.Crash? {
        DecideEnds(cfg, Account(cfg, w, sid, id, st, ran.calls, o), sid, id, st, o);
      }
    }
  }

  // ---- one run ----

  ghost predicate RunOk(cfg: Config, w: World, sid: string, st: AgentState, r: Result) {
    var n := |r.world.execs| - |w.execs|;
    && Grew(cfg, w.execs, r.world.execs, sid)
    && r.world.faults >= w.faults
    && OthersUntouched(w.store, r.world.store, sid)
    && n <= StepsLeft(cfg, st)
    && !r.exit.Refused?
    && (r.world.faults == w.faults ==>
          Persisted(r.exit, r.world, sid) && r.exit.state.stepCount == st.stepCount + n)
  }

  lemma RunOkStop(cfg: Config, w: World, sid: string, st: AgentState, x: Exit, w1: World)
    requires TurnOk(cfg, w, sid, st, Stop(x, w1))
    ensures RunOk(cfg, w, sid, st, Result(x, w1))
  {
  }

  lemma RunOkContinue(cfg: Config, w: World, sid: string, st: AgentState, st1: AgentState, w1: World, r: Result)
    requires TurnOk(cfg, w, sid, st, Continue(st1, w1)) && RunOk(cfg, w1, sid, st1, r)
    ensures RunOk(cfg, w, sid, st, r)
  {
    GrewTransitive(cfg, w.execs, w1.execs, r.world.execs, sid);
  }

  lemma GrewTransitive(cfg: Config, a: seq<Tagged<Exec>>, b: seq<Tagged<Exec>>, c: seq<Tagged<Exec>>, sid: string)
    requires Grew(cfg, a, b, sid) && Grew(cfg, b, c, sid)
    ensures Grew(cfg, a, c, sid)
  {
    assert c[..|a|] == c[..|b|][..|a|];
    forall i | |a| <= i < |b| ensures c[i] == b[i] {
      assert c[i] == c[..|b|][i];
    }
  }

  /** Every run halts (RunLoop is a total function), executes at most maxSteps - StepCount nodes whatever
      the graph and the nodes do, and unless a fault occurred ends settled, persisted and with every
      execution counted, even when nodes report other step counts. */
  lemma {:induction false} RunEffect(cfg: Config, w: World, sid: string, st: AgentState)
    ensures RunOk(cfg, w, sid, st, RunLoop(cfg, w, sid, st))
    decreases StepsLeft(cfg, st)
  {
    TurnEffect(cfg, w, sid, st);
    TurnUsesOneStep(cfg, w, sid, st);
    match Iterate(cfg, w, sid, st) {
      case Stop(x, w1) => RunOkStop(cfg, w, sid, st, x, w1);
      case Continue(st1, w1) =>
        RunEffect(cfg, w1, sid, st1);
        RunOkContinue(cfg, w, sid, st, st1, w1, RunLoop(cfg, w1, sid, st1));
    }
  }

  // ---- whole sessions ----

  /** The executions of session `sid` between two worlds. */
  function Executed(w: World, w1: World, sid: string): seq<Exec>
    requires |w.execs| <= |w1.execs|
  {
    Of(w1.execs[|w.execs|..], sid)
  }

  function TotalCalls(s: seq<Exec>): nat {
    if s == [] then 0 else TotalCalls(s[..|s| - 1]) + s[|s| - 1].calls
  }

  /** Among these calls, session `sid` is only ever resumed. Other sessions may be started and resumed. */
  ghost predicate NeverRestarts(calls: seq<Call>, sid: string) {
    forall i :: 0 <= i < |calls| && calls[i].StartCall? ==> calls[i].sid != sid
  }

  /** What one call to Start or Resume does, on whichever session. */
  ghost predicate CallOk(cfg: Config, w: World, c: Call, r: Result) {
    var n := |r.world.execs| - |w.execs|;
    && Grew(cfg, w.execs, r.world.execs, c.sid)
    && r.world.faults >= w.faults
    && OthersUntouched(w.store, r.world.store, c.sid)
    && (c.StartCall? ==> RunOk(cfg, w, c.sid, Prepared(cfg, c.initial), r))
    && (c.ResumeCall? ==>
          match Latest(w.store, c.sid)
          case None => n == 0 && r.world.store == w.store
          case Some(saved) =>
            && n <= StepsLeft(cfg, saved)
            && (r.world.faults == w.faults ==>
                  Latest(r.world.store, c.sid).Some?
                  && Latest(r.world.store, c.sid).value.stepCount == saved.stepCount + n))
  }

  lemma ResumeEffect(cfg: Config, w: World, sid: string, saved: AgentState, injection: map<string, Value>)
    requires Latest(w.store, sid) == Some(saved)
    ensures CallOk(cfg, w, ResumeCall(sid, injection), Resume(cfg, w, sid, injection))
  {
    if saved.status == Paused {
      var st := Injected(saved, injection);
      var r := ResolveNext(cfg, w, st);
      if r.route.Ok? && r.route.value != "" {
        RunEffect(cfg, r.world, sid, st.(lastNodeID := r.route.value));
      }
    }
  }

  lemma CallEffect(cfg: Config, w: World, c: Call)
    ensures CallOk(cfg, w, c, Apply(cfg, w, c))
  {
    match c
    case StartCall(sid, initial) => RunEffect(cfg, w, sid, Prepared(cfg, initial));
    case ResumeCall(sid, injection) =>
      if sid in w.store.states {
        ResumeEffect(cfg, w, sid, w.store.states[sid], injection);
      }
  }

  lemma {:induction false} FaultsGrow(cfg: Config, w: World, calls: seq<Call>)
    ensures After(cfg, w, calls).faults >= w.faults
    ensures |After(cfg, w, calls).execs| >= |w.execs|
    ensures After(cfg, w, calls).execs[..|w.execs|] == w.execs
  {
    if calls != [] {
      FaultsGrow(cfg, w, calls[..|calls| - 1]);
      CallEffect(cfg, After(cfg, w, calls[..|calls| - 1]), calls[|calls| - 1]);
    }
  }

  lemma {:induction false} OfAll(cfg: Config, log: seq<Tagged<Exec>>, sid: string, other: string)
    requires Grew(cfg, [], log, sid)
    ensures other == sid ==> |Of(log, other)| == |log|
                             && forall i :: 0 <= i < |log| ==> CallsWithinCap(cfg, Of(log, other)[i])
    ensures other != sid ==> Of(log, other) == []
  {
    if log != [] {
      OfAll(cfg, log[..|log| - 1], sid, other);
    }
  }

  /** How one more call on session `who` lengthens the executions of session `sid`. */
  lemma ExecutedGrows(cfg: Config, w: World, w1: World, w2: World, who: string, sid: string)
    requires |w.execs| <= |w1.execs| && Grew(cfg, w1.execs, w2.execs, who)
    ensures who != sid ==> Executed(w, w2, sid) == Executed(w, w1, sid)
    ensures who == sid ==>
              && |Executed(w, w2, sid)| == |Executed(w, w1, sid)| + (|w2.execs| - |w1.execs|)
              && Executed(w, w2, sid)[..|Executed(w, w1, sid)|] == Executed(w, w1, sid)
              && forall i :: |Executed(w, w1, sid)| <= i < |Executed(w, w2, sid)| ==>
                   CallsWithinCap(cfg, Executed(w, w2, sid)[i])
  {
    var tail := w2.execs[|w1.execs|..];
    assert w2.execs[|w.execs|..] == w1.execs[|w.execs|..] + tail;
    OfConcat(w1.execs[|w.execs|..], tail, sid);
    OfAll(cfg, tail, who, sid);
  }

  lemma {:induction false} TotalCallsBounded(cfg: Config, s: seq<Exec>)
    requires cfg.maxAttempts >= 0
    requires forall i :: 0 <= i < |s| ==> CallsWithinCap(cfg, s[i])
    ensures TotalCalls(s) <= |s| * cfg.maxAttempts
  {
    if s != [] {
      TotalCallsBounded(cfg, s[..|s| - 1]);
    }
  }

  lemma ScaleMonotone(a: nat, b: nat, c: nat)
    requires a <= b
    ensures a * c <= b * c
  {
  }
}
