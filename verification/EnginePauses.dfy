/** Pause and resume are transparent: a session cut at any number of pauses, each answered by Resume with
    its own injected variables, ends like the run in which no pause ever happened. */
module EnginePauses {
  import opened Core
  import opened Retry
  import opened Graphs
  import opened Store
  import opened Engine

  /** The variables a human injects at the pause reached when the clock stands at k. Clocks of distinct
      pauses differ, so any sequence of injections is such a function. */
  type Human = nat -> map<string, Value>

  // ---- the uncut engine ----

  /** Would this error park the session, its announcement included? */
  predicate ParksOn(hasBus: bool, e: Err) {
    IsCategory(e, HumanNeeded) && !(hasBus && AsAgent(e).value.cause == None)
  }

  /** The state with these variables set on top of its own, running. */
  function Overlaid(st: AgentState, injection: map<string, Value>): AgentState {
    st.(variables := st.variables + injection, status := Running)
  }

  /** The node's answer without its pause: the state it would have been parked with, already holding the
      injected variables. A next-node override given together with a pause is dropped, as Resume drops it. */
  function Unpaused(hasBus: bool, st: AgentState, a: Attempt<Reply>, injection: map<string, Value>): Attempt<Reply> {
    match a
    case Fail(e) =>
      if ParksOn(hasBus, e) then Ok(Reply(Some(Overlaid(st, injection)), [], None)) else a
    case Ok(NilReply) => a
    case Ok(Reply(reported, _, interrupt)) =>
      if interrupt == None then a
      else Ok(Reply(Some(Overlaid(if reported.Some? then reported.value else st, injection)), [], None))
  }

  function UnpausedNode(cfg: Config, n: Node, h: Human): Node {
    Node(n.id, (k: nat, st: AgentState) => Unpaused(cfg.hasBus, st, n.process(k, st), h(k + 1)))
  }

  /** The same engine over nodes that never pause. */
  function Uncut(cfg: Config, h: Human): Config {
    cfg.(graph := cfg.graph.(nodes := map id | id in cfg.graph.nodes :: UnpausedNode(cfg, cfg.graph.nodes[id], h)))
  }

  // ---- the cut session ----

  predicate IsPaused(x: Exit) {
    x.Returned? && x.state.status == Paused
  }

  /** After a call that ended in `x`, resume up to n times, as long as the session is paused. */
  function Play(cfg: Config, w: World, sid: string, h: Human, x: Exit, n: nat): Result
    decreases n
  {
    if n == 0 || !IsPaused(x) then Result(x, w)
    else
      var r := Resume(cfg, w, sid, h(w.clock));
      Play(cfg, r.world, sid, h, r.exit, n - 1)
  }

  // ---- comparing the two ----

  /** Same questions asked, same nodes executed, same artifacts posted. */
  predicate SameTrace(w: World, u: World) {
    w.clock == u.clock && w.execs == u.execs && w.posts == u.posts
  }

  /** Questions put when routing a state that stands at this node. */
  function Questions(cfg: Config, id: string): nat {
    var e := FirstEdge(cfg.graph.edges, id);
    if e.Some? && e.value.isCond then 1 else 0
  }

  /** The cut session ended as the uncut run did; or its last Resume was refused, the session still Paused,
      for the very error the uncut run failed with, and the uncut run failed in the paused state, holding what
      was injected with that Resume. */
  ghost predicate Agrees(cfg: Config, r: Result, u: Result, sid: string, h: Human) {
    && SameTrace(r.world, u.world)
    && match r.exit
       case Refused(why) =>
         var p := Latest(r.world.store, sid);
         p.Some? && p.value.status == Paused
         && var k := r.world.clock - Questions(cfg, p.value.lastNodeID);
            k >= 0 && u.exit == Returned(Overlaid(p.value, h(k)).WithStatus(Failed), Some(why))
       case _ =>
         u.exit == r.exit
         && (r.exit.Returned? ==> Latest(r.world.store, sid) == Latest(u.world.store, sid) == Some(r.exit.state))
  }

  ghost predicate StepsAgree(s: Step, u: Step, sid: string) {
    && SameTrace(s.world, u.world)
    && (s.Continue? <==> u.Continue?)
    && (s.Continue? ==> s.state == u.state)
    && (s.Stop? ==> s.exit == u.exit && !s.exit.Refused? && !IsPaused(s.exit)
                    && (s.exit.Returned? ==> Latest(s.world.store, sid) == Latest(u.world.store, sid) == Some(s.exit.state)))
  }

  // ---- one node ----

  function UnpausedVerdict(hasBus: bool, st: AgentState, v: Verdict<Reply>, injection: map<string, Value>): Verdict<Reply> {
    match v
    case NoAttempt => v
    case Success(r) =>
      (match Unpaused(hasBus, st, Ok(r), injection) case Ok(q) => Success(q) case Fail(e) => Failure(e))
    case Failure(e) =>
      (match Unpaused(hasBus, st, Fail(e), injection) case Ok(q) => Success(q) case Fail(e1) => Failure(e1))
  }

  /** Retrying an unpaused node takes the same calls and gives the unpaused verdict. */
  lemma {:induction false} RetryUnpaused(
    max: int, hasBus: bool, st: AgentState, fn: nat -> Attempt<Reply>, un: nat -> Attempt<Reply>,
    done: nat -> bool, h: Human, clock: nat, i: nat)
    requires forall j: nat :: un(j) == Unpaused(hasBus, st, fn(j), h(clock + j + 1))
    ensures var r, u := From(max, fn, done, i), From(max, un, done, i);
            && u.calls == r.calls
            && u.verdict == UnpausedVerdict(hasBus, st, r.verdict, h(clock + r.calls))
    decreases max - i
  {
    if i < max {
      assert un(i) == Unpaused(hasBus, st, fn(i), h(clock + i + 1));
      if Retry.Retriable(fn(i)) && i < max - 1 && !done(i) {
        RetryUnpaused(max, hasBus, st, fn, un, done, h, clock, i + 1);
      }
    }
  }

  lemma AttemptsUnpaused(cfg: Config, h: Human, id: string, st: AgentState, clock: nat)
    requires id in cfg.graph.nodes
    ensures var r, u := Attempts(cfg, id, st, clock), Attempts(Uncut(cfg, h), id, st, clock);
            && u.calls == r.calls
            && u.verdict == UnpausedVerdict(cfg.hasBus, st, r.verdict, h(clock + r.calls))
  {
    var p, q := cfg.graph.nodes[id].process, Uncut(cfg, h).graph.nodes[id].process;
    RetryUnpaused(cfg.maxAttempts, cfg.hasBus, st, Tape(p, st, clock), Tape(q, st, clock), Shift(cfg.cancelled, clock), h, clock, 0);
  }

  /** Does the loop park on this outcome? */
  predicate Parks(cfg: Config, o: Outcome) {
    (o.Errored? && ParksOn(cfg.hasBus, o.err)) || (o.Replied? && o.interrupt.Some?)
  }

  function ParkedState(st: AgentState, o: Outcome): AgentState
    requires !o.Crash?
  {
    if o.Errored? then st.(stepCount := st.stepCount + 1) else o.state
  }

  /** The outcome of an unpaused node: the same, except that where the loop would park it goes on with the
      state Resume would build. */
  lemma PerformUnpaused(cfg: Config, h: Human, id: string, st: AgentState, v: Verdict<Reply>,
      injection: map<string, Value>, sid: string)
    requires st.lastNodeID == id
    ensures var o := Perform(cfg, id, st, v);
            var u := Perform(Uncut(cfg, h), id, st, UnpausedVerdict(cfg.hasBus, st, v, injection));
            && (!Parks(cfg, o) ==> u == o)
            && (Parks(cfg, o) ==>
                  && u.Replied? && u.nextNodes == [] && u.interrupt == None
                  && u.state == Overlaid(ParkedState(st, o), injection)
                  && NewPosts(sid, u) == NewPosts(sid, o))
  {
    var o := Perform(cfg, id, st, v);
    if o.Errored? && Parks(cfg, o) {
      assert UnpausedVerdict(cfg.hasBus, st, v, injection) == Success(Reply(Some(Overlaid(st, injection)), [], None));
    }
  }

  lemma ProceedAgrees(cfg: Config, h: Human, w: World, u: World, sid: string, id: string, st: AgentState, next: string)
    requires SameTrace(w, u) && (forall s :: cfg.marshals(s))
    ensures StepsAgree(Proceed(cfg, w, sid, id, st, next), Proceed(Uncut(cfg, h), u, sid, id, st, next), sid)
  {
  }

  lemma RouteAgrees(cfg: Config, h: Human, w: World, u: World, sid: string, id: string, st: AgentState,
      nextNodes: seq<string>)
    requires SameTrace(w, u) && (forall s :: cfg.marshals(s))
    ensures StepsAgree(RouteOn(cfg, w, sid, id, st, nextNodes), RouteOn(Uncut(cfg, h), u, sid, id, st, nextNodes), sid)
  {
    if nextNodes != [] {
      ProceedAgrees(cfg, h, w, u, sid, id, st, nextNodes[0]);
    } else {
      var r, q := ResolveNext(cfg, w, st), ResolveNext(Uncut(cfg, h), u, st);
      assert q.route == r.route && SameTrace(r.world, q.world);
      if r.route.Ok? {
        ProceedAgrees(cfg, h, r.world, q.world, sid, id, st, r.route.value);
      }
    }
  }

  lemma DecideAgrees(cfg: Config, h: Human, w: World, u: World, sid: string, id: string, st: AgentState, o: Outcome)
    requires SameTrace(w, u) && (forall s :: cfg.marshals(s))
    requires !Parks(cfg, o)
    ensures StepsAgree(Decide(cfg, w, sid, id, st, o), Decide(Uncut(cfg, h), u, sid, id, st, o), sid)
  {
    if o.Replied? {
      RouteAgrees(cfg, h, w, u, sid, id, o.state, o.nextNodes);
    }
  }

  // ---- the simulation ----

  /** The same turn's outcome in the two engines, and the logs up to its decision. */
  lemma OutcomeUnpaused(cfg: Config, h: Human, w: World, u: World, sid: string, st: AgentState)
    requires SameTrace(w, u) && Performs(cfg, st)
    ensures var un := Uncut(cfg, h);
            var o, ou := OutcomeOf(cfg, w, st), OutcomeOf(un, u, st);
            var w1 := Accounted(cfg, w, sid, st);
            && SameTrace(w1, Accounted(un, u, sid, st))
            && (!Parks(cfg, o) ==> ou == o)
            && (Parks(cfg, o) ==>
                  && ou.Replied? && ou.nextNodes == [] && ou.interrupt == None
                  && ou.state == Overlaid(ParkedState(st, o), h(w1.clock)))
  {
    var id := st.lastNodeID;
    AttemptsUnpaused(cfg, h, id, st, w.clock);
    var ran := Attempts(cfg, id, st, w.clock);
    PerformUnpaused(cfg, h, id, st, ran.verdict, h(w.clock + ran.calls), sid);
  }

  /** What stands at a pause: the parked state is persisted and everything the node did is accounted for. */
  lemma CutParks(cfg: Config, w: World, sid: string, st: AgentState)
    requires forall s :: cfg.marshals(s)
    requires Performs(cfg, st) && Parks(cfg, OutcomeOf(cfg, w, st))
    ensures var s := Iterate(cfg, w, sid, st);
            var p := ParkedState(st, OutcomeOf(cfg, w, st)).WithStatus(Paused);
            && p.lastNodeID == st.lastNodeID && p.stepCount == st.stepCount + 1
            && s.Stop? && s.exit == Returned(p, None)
            && Latest(s.world.store, sid) == Some(p)
            && SameTrace(s.world, Accounted(cfg, w, sid, st))
  {
  }

  /** The same turn of the uncut engine routes on with the state Resume will build. */
  lemma UncutRoutesOn(cfg: Config, h: Human, w: World, u: World, sid: string, st: AgentState)
    requires SameTrace(w, u)
    requires Performs(cfg, st) && Parks(cfg, OutcomeOf(cfg, w, st))
    ensures var un := Uncut(cfg, h);
            var w1 := Accounted(cfg, w, sid, st);
            && SameTrace(w1, Accounted(un, u, sid, st))
            && Iterate(un, u, sid, st)
            == RouteOn(un, Accounted(un, u, sid, st), sid, st.lastNodeID,
                       Overlaid(ParkedState(st, OutcomeOf(cfg, w, st)), h(w1.clock)), [])
  {
    OutcomeUnpaused(cfg, h, w, u, sid, st);
  }

  /** A turn in which the cut engine does not park is the same turn in both engines. */
  lemma CommonTurn(cfg: Config, h: Human, w: World, u: World, sid: string, st: AgentState)
    requires forall s :: cfg.marshals(s)
    requires SameTrace(w, u)
    requires Performs(cfg, st) ==> !Parks(cfg, OutcomeOf(cfg, w, st))
    ensures StepsAgree(Iterate(cfg, w, sid, st), Iterate(Uncut(cfg, h), u, sid, st), sid)
  {
    if Performs(cfg, st) {
      var id := st.lastNodeID;
      OutcomeUnpaused(cfg, h, w, u, sid, st);
      DecideAgrees(cfg, h, Accounted(cfg, w, sid, st), Accounted(Uncut(cfg, h), u, sid, st), sid, id, st, OutcomeOf(cfg, w, st));
    }
  }

  /** Playing a session from a loop state on. */
  function PlayFrom(cfg: Config, w: World, sid: string, h: Human, st: AgentState, n: nat): Result {
    var r := RunLoop(cfg, w, sid, st);
    Play(cfg, r.world, sid, h, r.exit, n)
  }

  /** A played session against an uncut run: agreement once it is no longer paused, which `left` resumes
      ensure. */
  ghost predicate Matches(cfg: Config, r: Result, u: Result, sid: string, h: Human, n: nat, left: nat) {
    (!IsPaused(r.exit) ==> Agrees(cfg, r, u, sid, h)) && (n >= left ==> !IsPaused(r.exit))
  }

  lemma {:induction false} Simulation(cfg: Config, h: Human, w: World, u: World, sid: string, st: AgentState, n: nat)
    requires (forall s :: cfg.marshals(s)) && SameTrace(w, u)
    ensures Matches(cfg, PlayFrom(cfg, w, sid, h, st, n), RunLoop(Uncut(cfg, h), u, sid, st), sid, h, n, StepsLeft(cfg, st))
    decreases StepsLeft(cfg, st), n
  {
    var un := Uncut(cfg, h);
    TurnUsesOneStep(cfg, w, sid, st);
    if Performs(cfg, st) && Parks(cfg, OutcomeOf(cfg, w, st)) {
      CutParks(cfg, w, sid, st);
      UncutRoutesOn(cfg, h, w, u, sid, st);
      if n > 0 {
        var w1 := Iterate(cfg, w, sid, st).world;
        AfterPause(cfg, h, w1, Accounted(un, u, sid, st), sid, st, ParkedState(st, OutcomeOf(cfg, w, st)).WithStatus(Paused), n);
      }
    } else {
      CommonTurn(cfg, h, w, u, sid, st);
      var s := Iterate(cfg, w, sid, st);
      if s.Continue? {
        Simulation(cfg, h, s.world, Iterate(un, u, sid, st).world, sid, s.state, n);
      }
    }
  }

  /** Where a pause leads nowhere: Resume completes the session at a Terminal, or is refused and leaves it
      Paused, while the uncut engine completes or fails. */
  lemma DeadEndAfterPause(cfg: Config, h: Human, w: World, u: World, sid: string, p: AgentState)
    requires (forall s :: cfg.marshals(s)) && SameTrace(w, u)
    requires p.status == Paused && Latest(w.store, sid) == Some(p)
    requires var q := ResolveNext(cfg, w, Overlaid(p, h(w.clock)));
             q.route.Fail? || q.route.value == ""
    ensures var s := RouteOn(Uncut(cfg, h), u, sid, p.lastNodeID, Overlaid(p, h(w.clock)), []);
            var r := Resume(cfg, w, sid, h(w.clock));
            s.Stop? && !IsPaused(r.exit) && Agrees(cfg, r, Result(s.exit, s.world), sid, h)
  {
    var st1 := Overlaid(p, h(w.clock));
    var q, qu := ResolveNext(cfg, w, st1), ResolveNext(Uncut(cfg, h), u, st1);
    assert q.route == qu.route && SameTrace(q.world, qu.world) && q.world.store == w.store;
    assert q.route.Fail? || p.lastNodeID !in cfg.graph.terminals ==> Resume(cfg, w, sid, h(w.clock)).exit.Refused?;
  }

  lemma PlayGoesOn(cfg: Config, h: Human, w: World, sid: string, p: AgentState, n: nat, next: string, w1: World)
    requires n > 0 && p.status == Paused && Latest(w.store, sid) == Some(p)
    requires ResolveNext(cfg, w, Overlaid(p, h(w.clock))) == Resolved(Ok(next), w1) && next != ""
    ensures Play(cfg, w, sid, h, Returned(p, None), n)
         == PlayFrom(cfg, w1, sid, h, Overlaid(p, h(w.clock)).(lastNodeID := next), n - 1)
  {
  }

  lemma UncutGoesOn(cfg: Config, h: Human, w: World, u: World, sid: string, id: string, st: AgentState)
    requires SameTrace(w, u)
    requires var r := ResolveNext(cfg, w, st).route;
             r.Ok? && r.value != ""
    ensures var q, qu := ResolveNext(cfg, w, st), ResolveNext(Uncut(cfg, h), u, st);
            && SameTrace(q.world, qu.world)
            && RouteOn(Uncut(cfg, h), u, sid, id, st, []) == Continue(st.(lastNodeID := q.route.value), qu.world)
  {
  }

  /** What the uncut engine does with the paused state, injected. */
  function UncutFrom(cfg: Config, h: Human, u: World, sid: string, p: AgentState, injection: map<string, Value>): Result {
    match RouteOn(Uncut(cfg, h), u, sid, p.lastNodeID, Overlaid(p, injection), [])
    case Stop(x, u1) => Result(x, u1)
    case Continue(st, u1) => RunLoop(Uncut(cfg, h), u1, sid, st)
  }

  lemma OneMoreResume(cfg: Config, h: Human, w: World, u: World, sid: string, st: AgentState, p: AgentState, n: nat)
    requires SameTrace(w, u) && n > 0
    requires st.stepCount < cfg.maxSteps && p.stepCount == st.stepCount + 1
    requires p.status == Paused && Latest(w.store, sid) == Some(p)
    requires var q := ResolveNext(cfg, w, Overlaid(p, h(w.clock)));
             && q.route.Ok? && q.route.value != ""
             && var st1 := Overlaid(p, h(w.clock)).(lastNodeID := q.route.value);
                var qu := ResolveNext(Uncut(cfg, h), u, Overlaid(p, h(w.clock)));
                Matches(cfg, PlayFrom(cfg, q.world, sid, h, st1, n - 1), RunLoop(Uncut(cfg, h), qu.world, sid, st1),
                        sid, h, n - 1, StepsLeft(cfg, st1))
    ensures Matches(cfg, Play(cfg, w, sid, h, Returned(p, None), n), UncutFrom(cfg, h, u, sid, p, h(w.clock)),
                    sid, h, n, StepsLeft(cfg, st))
  {
    var q := ResolveNext(cfg, w, Overlaid(p, h(w.clock)));
    PlayGoesOn(cfg, h, w, sid, p, n, q.route.value, q.world);
    UncutGoesOn(cfg, h, w, u, sid, p.lastNodeID, Overlaid(p, h(w.clock)));
  }

  /** From a pause on: Resume and the uncut engine route the same state. */
  lemma {:induction false} AfterPause(cfg: Config, h: Human, w: World, u: World, sid: string, st: AgentState,
      p: AgentState, n: nat)
    requires (forall s :: cfg.marshals(s)) && SameTrace(w, u) && n > 0
    requires st.stepCount < cfg.maxSteps && p.stepCount == st.stepCount + 1
    requires p.status == Paused && Latest(w.store, sid) == Some(p)
    ensures Matches(cfg, Play(cfg, w, sid, h, Returned(p, None), n), UncutFrom(cfg, h, u, sid, p, h(w.clock)),
                    sid, h, n, StepsLeft(cfg, st))
    decreases StepsLeft(cfg, st), 0
  {
    var st1 := Overlaid(p, h(w.clock));
    var q, qu := ResolveNext(cfg, w, st1), ResolveNext(Uncut(cfg, h), u, st1);
    if q.route.Fail? || q.route.value == "" {
      DeadEndAfterPause(cfg, h, w, u, sid, p);
    } else {
      UncutGoesOn(cfg, h, w, u, sid, p.lastNodeID, st1);
      Simulation(cfg, h, q.world, qu.world, sid, st1.(lastNodeID := q.route.value), n - 1);
      OneMoreResume(cfg, h, w, u, sid, st, p, n);
    }
  }

  /** Transparency. For every graph, every behaviour of nodes and routers, and every sequence of
      injections: start a session and resume it as long as it is paused. If it ends, it has executed the
      same nodes, posted the same artifacts and returned and persisted the same final state as one
      uninterrupted run of nodes that never pause but set the injected variables themselves; the one
      exception is a Resume that is refused where the uncut run fails, with the same error. And it does end:
      maxSteps - StepCount0 resumes are always enough. */
  lemma PauseResumeTransparent(cfg: Config, w: World, sid: string, initial: Option<AgentState>, h: Human, resumes: nat)
    requires forall s :: cfg.marshals(s)
    ensures var started := Start(cfg, w, sid, initial);
            var r := Play(cfg, started.world, sid, h, started.exit, resumes);
            && (!IsPaused(r.exit) ==> Agrees(cfg, r, Start(Uncut(cfg, h), w, sid, initial), sid, h))
            && (resumes >= StepsLeft(cfg, Prepared(cfg, initial)) ==> !IsPaused(r.exit))
  {
    Simulation(cfg, h, w, w, sid, Prepared(cfg, initial), resumes);
  }
}
