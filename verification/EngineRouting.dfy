/** Where runs can go: sessions on a built graph never reach an unregistered node, and on static graphs
    they stay within what the builder's reachability pass computed. */
module EngineRouting {
  import opened Core
  import opened Retry
  import opened Graphs
  import opened Store
  import opened Engine
  import EngineRuns
  import EngineExits

  // ---- sets of nodes that routing cannot leave ----

  predicate RouteStays(a: Attempt<string>, area: set<string>) {
    a.Ok? && a.value != "" ==> a.value in area
  }

  predicate OverrideStays(a: Attempt<Reply>, area: set<string>) {
    a.Ok? && a.value.Reply? && a.value.nextNodes != [] && a.value.nextNodes[0] != "" ==> a.value.nextNodes[0] in area
  }

  /** Inside `area`, every static edge, router answer and node override leads to no node or to `area`. */
  ghost predicate Traps(cfg: Config, area: set<string>) {
    && (forall i :: 0 <= i < |cfg.graph.edges| && cfg.graph.edges[i].fromID in area && !cfg.graph.edges[i].isCond ==>
          cfg.graph.edges[i].toID == "" || cfg.graph.edges[i].toID in area)
    && (forall i, k, st :: 0 <= i < |cfg.graph.edges| && cfg.graph.edges[i].fromID in area && cfg.graph.edges[i].isCond ==>
          RouteStays(cfg.graph.edges[i].router(k, st), area))
    && (forall id, k, st :: id in area && id in cfg.graph.nodes ==> OverrideStays(cfg.graph.nodes[id].process(k, st), area))
  }

  lemma ResolveStays(cfg: Config, area: set<string>, w: World, st: AgentState)
    requires Traps(cfg, area) && st.lastNodeID in area
    ensures RouteStays(ResolveNext(cfg, w, st).route, area)
  {
    FirstEdgeIsFirst(cfg.graph.edges, st.lastNodeID);
  }

  ghost predicate StepStays(s: Step, area: set<string>) {
    match s
    case Continue(st, _) => st.lastNodeID in area
    case Stop(Returned(st, _), _) => st.lastNodeID in area
    case _ => true
  }

  lemma RouteOnStays(cfg: Config, area: set<string>, w: World, sid: string, id: string, st: AgentState,
      nextNodes: seq<string>)
    requires Traps(cfg, area) && st.lastNodeID in area
    requires nextNodes != [] && nextNodes[0] != "" ==> nextNodes[0] in area
    ensures StepStays(RouteOn(cfg, w, sid, id, st, nextNodes), area)
    ensures LatestStays(w, RouteOn(cfg, w, sid, id, st, nextNodes).world, sid, area)
  {
    if nextNodes == [] {
      ResolveStays(cfg, area, w, st);
    }
  }

  /** The session's latest snapshot is the old one or stands inside `area`. */
  ghost predicate LatestStays(w: World, w1: World, sid: string, area: set<string>) {
    var l := Latest(w1.store, sid);
    l == Latest(w.store, sid) || (l.Some? && l.value.lastNodeID in area)
  }

  lemma DecideStays(cfg: Config, area: set<string>, w: World, sid: string, st: AgentState, o: Outcome)
    requires Traps(cfg, area) && st.lastNodeID in area
    requires o.Replied? ==> o.state.lastNodeID in area
                            && (o.nextNodes != [] && o.nextNodes[0] != "" ==> o.interrupt.Some? || o.nextNodes[0] in area)
    ensures StepStays(Decide(cfg, w, sid, st.lastNodeID, st, o), area)
    ensures LatestStays(w, Decide(cfg, w, sid, st.lastNodeID, st, o).world, sid, area)
  {
    if o.Replied? && o.interrupt == None {
      RouteOnStays(cfg, area, w, sid, st.lastNodeID, o.state, o.nextNodes);
    }
  }

  ghost predicate ExecutedWithin(w: World, w1: World, area: set<string>) {
    && |w.execs| <= |w1.execs| && w1.execs[..|w.execs|] == w.execs
    && forall i :: |w.execs| <= i < |w1.execs| ==> w1.execs[i].item.nodeID in area
  }

  lemma TurnStays(cfg: Config, area: set<string>, w: World, sid: string, st: AgentState)
    requires Traps(cfg, area) && st.lastNodeID in area
    ensures StepStays(Iterate(cfg, w, sid, st), area)
    ensures ExecutedWithin(w, Iterate(cfg, w, sid, st).world, area)
    ensures LatestStays(w, Iterate(cfg, w, sid, st).world, sid, area)
  {
    if st.status != Failed && st.status != Completed && st.stepCount < cfg.maxSteps && st.lastNodeID in cfg.graph.nodes {
      var id := st.lastNodeID;
      var ran := Attempts(cfg, id, st, w.clock);
      var o := Perform(cfg, id, st, ran.verdict);
      var a := Account(cfg, w, sid, id, st, ran.calls, o);
      EngineExits.VerdictFromNode(cfg, id, st, w.clock);
      assert ran.verdict.Success? ==> OverrideStays(Ok(ran.verdict.value), area);
      DecideKeepsExecs(cfg, a, sid, id, st, o);
      DecideStays(cfg, area, a, sid, st, o);
    }
  }

  lemma DecideKeepsExecs(cfg: Config, w: World, sid: string, id: string, st: AgentState, o: Outcome)
    ensures Decide(cfg, w, sid, id, st, o).world.execs == w.execs
  {
  }

  lemma ExecutedWithinTransitive(a: World, b: World, c: World, area: set<string>)
    requires ExecutedWithin(a, b, area) && ExecutedWithin(b, c, area)
    ensures ExecutedWithin(a, c, area)
  {
    assert c.execs[..|a.execs|] == c.execs[..|b.execs|][..|a.execs|];
    forall i | |a.execs| <= i < |b.execs| ensures c.execs[i] == b.execs[i] {
      assert c.execs[i] == c.execs[..|b.execs|][i];
    }
  }

  lemma {:induction false} RunStays(cfg: Config, area: set<string>, w: World, sid: string, st: AgentState)
    requires Traps(cfg, area) && st.lastNodeID in area
    ensures var r := RunLoop(cfg, w, sid, st);
            && ExecutedWithin(w, r.world, area) && LatestStays(w, r.world, sid, area)
            && (r.exit.Returned? ==> r.exit.state.lastNodeID in area)
    decreases StepsLeft(cfg, st)
  {
    TurnUsesOneStep(cfg, w, sid, st);
    TurnStays(cfg, area, w, sid, st);
    match Iterate(cfg, w, sid, st) {
      case Stop(_, _) =>
      case Continue(st1, w1) =>
        EngineRuns.TurnEffect(cfg, w, sid, st);
        RunStays(cfg, area, w1, sid, st1);
        ExecutedWithinTransitive(w, w1, RunLoop(cfg, w1, sid, st1).world, area);
    }
  }

  // ---- whole sessions ----

  /** The session's latest snapshot, if it has one, stands inside `area`. */
  ghost predicate StandsIn(w: World, sid: string, area: set<string>) {
    sid in w.store.states ==> w.store.states[sid].lastNodeID in area
  }

  /** The session stands inside `area` and everything it executed since `w` was there. */
  ghost predicate Within(w: World, w1: World, sid: string, area: set<string>) {
    && |w.execs| <= |w1.execs| && StandsIn(w1, sid, area)
    && forall i :: |w.execs| <= i < |w1.execs| && w1.execs[i].session == sid ==> w1.execs[i].item.nodeID in area
  }

  lemma StartWithin(cfg: Config, area: set<string>, w: World, sid: string, initial: Option<AgentState>)
    requires Traps(cfg, area) && Prepared(cfg, initial).lastNodeID in area && StandsIn(w, sid, area)
    ensures Within(w, Start(cfg, w, sid, initial).world, sid, area)
  {
    RunStays(cfg, area, w, sid, Prepared(cfg, initial));
  }

  lemma WithinGrows(w: World, w1: World, w2: World, sid: string, area: set<string>)
    requires Within(w, w1, sid, area)
    requires |w1.execs| <= |w2.execs| && w2.execs[..|w1.execs|] == w1.execs
    requires StandsIn(w2, sid, area)
    requires forall i :: |w1.execs| <= i < |w2.execs| && w2.execs[i].session == sid ==> w2.execs[i].item.nodeID in area
    ensures Within(w, w2, sid, area)
  {
    forall i | |w.execs| <= i < |w2.execs| && w2.execs[i].session == sid
      ensures w2.execs[i].item.nodeID in area
    {
      if i < |w1.execs| {
        assert w2.execs[i] == w2.execs[..|w1.execs|][i];
      }
    }
  }

  /** A call on a session inside the area keeps it there. */
  lemma CallWithin(cfg: Config, area: set<string>, w: World, w1: World, c: Call, sid: string)
    requires Traps(cfg, area) && Within(w, w1, sid, area)
    requires c.StartCall? ==> c.sid != sid
    ensures Within(w, Apply(cfg, w1, c).world, sid, area)
  {
    var w2 := Apply(cfg, w1, c).world;
    if c.sid == sid {
      ResumeWithin(cfg, area, w1, sid, c.injection);
    } else {
      EngineRuns.CallEffect(cfg, w1, c);
      assert Latest(w2.store, sid) == Latest(w1.store, sid);
    }
    WithinGrows(w, w1, w2, sid, area);
  }

  lemma ResumeWithin(cfg: Config, area: set<string>, w: World, sid: string, injection: map<string, Value>)
    requires Traps(cfg, area) && StandsIn(w, sid, area)
    ensures var r := Resume(cfg, w, sid, injection);
            && StandsIn(r.world, sid, area) && ExecutedWithin(w, r.world, area)
            && (r.exit.Returned? ==> r.exit.state.lastNodeID in area)
  {
    var l := Latest(w.store, sid);
    if l.Some? && l.value.status == Paused {
      var st := Injected(l.value, injection);
      var r := ResolveNext(cfg, w, st);
      ResolveStays(cfg, area, w, st);
      if r.route.Ok? && r.route.value != "" {
        RunStays(cfg, area, r.world, sid, st.(lastNodeID := r.route.value));
      }
    }
  }

  /** No session leaves an area that routing does not lead out of, whatever is lost or panics on the way. */
  lemma {:induction false} SessionWithin(cfg: Config, area: set<string>, w: World, sid: string,
      initial: Option<AgentState>, calls: seq<Call>)
    requires Traps(cfg, area) && Prepared(cfg, initial).lastNodeID in area && StandsIn(w, sid, area)
    requires EngineRuns.NeverRestarts(calls, sid)
    ensures Within(w, After(cfg, Start(cfg, w, sid, initial).world, calls), sid, area)
  {
    if calls == [] {
      StartWithin(cfg, area, w, sid, initial);
    } else {
      var n := |calls| - 1;
      SessionWithin(cfg, area, w, sid, initial, calls[..n]);
      CallWithin(cfg, area, w, After(cfg, Start(cfg, w, sid, initial).world, calls[..n]), calls[n], sid);
    }
  }

  // ---- built graphs ----

  /** Every router answer and every override is no node or a registered one. */
  ghost predicate RoutersRegistered(cfg: Config) {
    && (forall i, k, st :: 0 <= i < |cfg.graph.edges| ==> RouteStays(cfg.graph.edges[i].router(k, st), cfg.graph.nodes.Keys))
    && (forall id, k, st :: id in cfg.graph.nodes ==> OverrideStays(cfg.graph.nodes[id].process(k, st), cfg.graph.nodes.Keys))
  }

  /** Built graphs never derail: if Build accepted the graph, routers and overrides name registered nodes,
      and the session starts at a registered node (or leaves it to Entry), then no call on it ever returns
      or stores a state standing at an unregistered node, so the missing-node failure is never taken. All a
      snapshot left by an earlier session of that ID has to meet is to stand at a registered node too. */
  lemma BuiltGraphsNeverDerail(cfg: Config, w: World, sid: string, initial: Option<AgentState>, calls: seq<Call>,
      injection: map<string, Value>)
    requires WellFormed(cfg.graph) && RoutersRegistered(cfg)
    requires Prepared(cfg, initial).lastNodeID in cfg.graph.nodes
    requires StandsIn(w, sid, cfg.graph.nodes.Keys)
    requires EngineRuns.NeverRestarts(calls, sid)
    ensures var s := Start(cfg, w, sid, initial);
            var w1 := After(cfg, s.world, calls);
            var r := Resume(cfg, w1, sid, injection);
            && (s.exit.Returned? ==> s.exit.state.lastNodeID in cfg.graph.nodes)
            && (r.exit.Returned? ==> r.exit.state.lastNodeID in cfg.graph.nodes)
            && StandsIn(w1, sid, cfg.graph.nodes.Keys) && StandsIn(r.world, sid, cfg.graph.nodes.Keys)
  {
    var area := cfg.graph.nodes.Keys;
    assert Traps(cfg, area) by {
      forall i | 0 <= i < |cfg.graph.edges| && !cfg.graph.edges[i].isCond
        ensures cfg.graph.edges[i].toID in area
      {
        assert EdgeOk(cfg.graph.nodes, cfg.graph.edges[i]);
      }
    }
    RunStays(cfg, area, w, sid, Prepared(cfg, initial));
    SessionWithin(cfg, area, w, sid, initial, calls);
    ResumeWithin(cfg, area, After(cfg, Start(cfg, w, sid, initial).world, calls), sid, injection);
  }

  /** On a graph with static edges only and no overrides, everything a session ever executes from Entry lies
      in the set marked by the builder's reachability pass (Graphs.Builder.CheckReachability). */
  lemma StaticSessionsStayReachable(cfg: Config, reachable: set<string>, w: World, sid: string,
      initial: Option<AgentState>, calls: seq<Call>)
    requires forall i :: 0 <= i < |cfg.graph.edges| ==> !cfg.graph.edges[i].isCond
    requires EngineExits.NeverOverrides(cfg)
    requires forall v :: v in reachable <==> Reachable(cfg.graph.edges, cfg.graph.entry, v)
    requires Prepared(cfg, initial).lastNodeID == cfg.graph.entry && StandsIn(w, sid, reachable)
    requires EngineRuns.NeverRestarts(calls, sid)
    ensures var w1 := After(cfg, Start(cfg, w, sid, initial).world, calls);
            && |w.execs| <= |w1.execs|
            && forall i :: |w.execs| <= i < |w1.execs| && w1.execs[i].session == sid ==> w1.execs[i].item.nodeID in reachable
  {
    var g := cfg.graph;
    ReachableSelf(g.edges, g.entry);
    assert Traps(cfg, reachable) by {
      forall i | 0 <= i < |g.edges| && g.edges[i].fromID in reachable && !g.edges[i].isCond
        ensures g.edges[i].toID in reachable
      {
        assert StaticEdge(g.edges, g.edges[i].fromID, g.edges[i].toID);
        ReachableStep(g.edges, g.entry, g.edges[i].fromID, g.edges[i].toID);
      }
      forall id, k, st | id in reachable && id in g.nodes ensures OverrideStays(g.nodes[id].process(k, st), reachable) {
        assert !EngineExits.Overrides(g.nodes[id].process(k, st));
      }
    }
    SessionWithin(cfg, reachable, w, sid, initial, calls);
  }
}
