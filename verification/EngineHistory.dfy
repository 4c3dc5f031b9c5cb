/** The checkpoints of a session: when nodes only edit the states they are given, a chain along which diffs
    patch. */
module EngineHistory {
  import opened Core
  import opened Retry
  import opened Graphs
  import opened Store
  import opened Engine
  import opened Inspector
  import EngineRuns
  import EngineExits

  /** A reply's state is the given state edited through WithMessage, WithVariable and WithStatus. */
  ghost predicate OnlyEdits(st: AgentState, a: Attempt<Reply>) {
    a.Ok? && a.value.Reply? && a.value.state.Some? ==> exists edits :: a.value.state.value == Edited(st, edits)
  }

  ghost predicate EditingNodes(cfg: Config) {
    forall id, k, st :: id in cfg.graph.nodes ==> OnlyEdits(st, cfg.graph.nodes[id].process(k, st))
  }

  /** The store stayed as it was or took one snapshot of this session, which extends `st`. */
  ghost predicate TookExtension(c: Contents, c1: Contents, sid: string, st: AgentState) {
    c1 == c || exists x :: Extends(st, x) && c1 == Put(c, sid, x)
  }

  ghost predicate StepGrows(w: World, sid: string, st: AgentState, s: Step) {
    && TookExtension(w.store, s.world.store, sid, st)
    && (s.Continue? ==> s.world.store == w.store && Extends(st, s.state))
  }

  lemma TookExtensionFrom(c: Contents, c1: Contents, sid: string, a: AgentState, b: AgentState)
    requires Extends(a, b) && TookExtension(c, c1, sid, b)
    ensures TookExtension(c, c1, sid, a)
  {
    if c1 != c {
      var x :| Extends(b, x) && c1 == Put(c, sid, x);
      ExtendsTransitive(a, b, x);
    }
  }

  lemma DecideGrows(cfg: Config, w: World, sid: string, id: string, st: AgentState, o: Outcome)
    ensures StepGrows(w, sid, if o.Replied? then o.state else st, Decide(cfg, w, sid, id, st, o))
  {
    var before := if o.Replied? then o.state else st;
    assert Extends(before, before);
  }

  lemma ReplyExtends(cfg: Config, id: string, st: AgentState, v: Verdict<Reply>, o: Outcome)
    requires v.Success? ==> OnlyEdits(st, Ok(v.value))
    requires o == Perform(cfg, id, st, v) && o.Replied?
    ensures Extends(st, o.state)
  {
    if v.value.state.Some? {
      var edits :| v.value.state.value == Edited(st, edits);
      EditedExtends(st, edits);
    }
  }

  lemma TurnGrows(cfg: Config, w: World, sid: string, st: AgentState)
    requires EditingNodes(cfg)
    ensures StepGrows(w, sid, st, Iterate(cfg, w, sid, st))
  {
    assert Extends(st, st);
    if Performs(cfg, st) {
      var id := st.lastNodeID;
      var o := OutcomeOf(cfg, w, st);
      var a := Accounted(cfg, w, sid, st);
      EngineExits.VerdictFromNode(cfg, id, st, w.clock);
      DecideGrows(cfg, a, sid, id, st, o);
      if o.Replied? {
        var v := Attempts(cfg, id, st, w.clock).verdict;
        ReplyExtends(cfg, id, st, v, o);
        StepGrowsFrom(a, sid, st, o.state, Iterate(cfg, w, sid, st));
      }
    }
  }

  lemma StepGrowsFrom(w: World, sid: string, a: AgentState, b: AgentState, s: Step)
    requires Extends(a, b) && StepGrows(w, sid, b, s)
    ensures StepGrows(w, sid, a, s)
  {
    TookExtensionFrom(w.store, s.world.store, sid, a, b);
    if s.Continue? {
      ExtendsTransitive(a, b, s.state);
    }
  }

  /** A run takes at most one checkpoint, and that extends the state it began with. */
  lemma {:induction false} RunGrows(cfg: Config, w: World, sid: string, st: AgentState)
    requires EditingNodes(cfg)
    ensures TookExtension(w.store, RunLoop(cfg, w, sid, st).world.store, sid, st)
    decreases StepsLeft(cfg, st)
  {
    TurnUsesOneStep(cfg, w, sid, st);
    TurnGrows(cfg, w, sid, st);
    match Iterate(cfg, w, sid, st) {
      case Stop(_, _) =>
      case Continue(st1, w1) =>
        RunGrows(cfg, w1, sid, st1);
        TookExtensionFrom(w.store, RunLoop(cfg, w1, sid, st1).world.store, sid, st, st1);
    }
  }

  /** A Resume takes at most one checkpoint, and that extends the session's latest. */
  lemma ResumeGrows(cfg: Config, w: World, sid: string, injection: map<string, Value>)
    requires EditingNodes(cfg) && sid in w.store.states
    ensures TookExtension(w.store, Resume(cfg, w, sid, injection).world.store, sid, w.store.states[sid])
  {
    var saved := w.store.states[sid];
    if saved.status == Paused {
      var st := Injected(saved, injection);
      var r := ResolveNext(cfg, w, st);
      if r.route.Ok? && r.route.value != "" {
        RunGrows(cfg, r.world, sid, st.(lastNodeID := r.route.value));
        TookExtensionFrom(w.store, Resume(cfg, w, sid, injection).world.store, sid, saved, st.(lastNodeID := r.route.value));
      } else if r.route.Ok? && st.lastNodeID in cfg.graph.terminals {
        assert Extends(saved, st.WithStatus(Completed));
      }
    }
  }

  // ---- whole sessions ----

  ghost predicate Chain(h: seq<AgentState>) {
    forall i, j :: 0 <= i <= j < |h| ==> Extends(h[i], h[j])
  }

  /** The session's checkpoints saved since `n` of them were listed. */
  ghost function Since(c: Contents, sid: string, n: nat): seq<AgentState>
    requires SessionOk(c, sid) && n <= |Listed(c, sid)|
  {
    History(c, sid)[n..]
  }

  ghost predicate Chained(c: Contents, sid: string, n: nat) {
    && Consistent(c) && SessionOk(c, sid) && n <= |Listed(c, sid)|
    && Chain(Since(c, sid, n))
  }

  lemma ChainSnoc(h: seq<AgentState>, st: AgentState)
    requires Chain(h) && (h != [] ==> Extends(h[|h| - 1], st))
    ensures Chain(h + [st])
  {
    var t := h + [st];
    forall i, j | 0 <= i <= j < |t| ensures Extends(t[i], t[j]) {
      if i < |h| && j == |h| {
        ExtendsTransitive(h[i], h[|h| - 1], st);
      }
    }
  }

  lemma PutChains(c: Contents, sid: string, n: nat, st: AgentState)
    requires Chained(c, sid, n) && (n < |Listed(c, sid)| ==> Extends(c.states[sid], st))
    ensures Chained(Put(c, sid, st), sid, n)
  {
    HistoryGrows(c, sid, st);
    var d := Put(c, sid, st);
    assert SessionOk(d, sid) && SessionOk(c, sid);
    assert Since(d, sid, n) == Since(c, sid, n) + [st];
    ChainSnoc(Since(c, sid, n), st);
  }

  lemma PutElsewhereChains(c: Contents, sid: string, n: nat, other: string, st: AgentState)
    requires Chained(c, sid, n) && other != sid
    ensures Chained(Put(c, other, st), sid, n)
  {
    PutKeeps(c, other, st);
    HistoryGrows(c, other, st);
    assert SessionOk(Put(c, other, st), sid);
    assert History(Put(c, other, st), sid) == History(c, sid);
  }

  lemma TookChains(c: Contents, c1: Contents, sid: string, n: nat, who: string, st: AgentState)
    requires Chained(c, sid, n) && TookExtension(c, c1, who, st)
    requires who == sid && n < |Listed(c, sid)| ==> st == c.states[sid]
    ensures Chained(c1, sid, n)
  {
    if c1 != c {
      var x :| Extends(st, x) && c1 == Put(c, who, x);
      if who == sid {
        PutChains(c, sid, n, x);
      } else {
        PutElsewhereChains(c, sid, n, who, x);
      }
    }
  }

  lemma CallChains(cfg: Config, w: World, c: Call, sid: string, n: nat)
    requires EditingNodes(cfg) && Chained(w.store, sid, n)
    requires c.StartCall? && c.sid == sid ==> n == |Listed(w.store, sid)|
    ensures Chained(Apply(cfg, w, c).world.store, sid, n)
  {
    var c1 := Apply(cfg, w, c).world.store;
    if c.StartCall? {
      RunGrows(cfg, w, c.sid, Prepared(cfg, c.initial));
      TookChains(w.store, c1, sid, n, c.sid, Prepared(cfg, c.initial));
    } else if c.sid in w.store.states {
      ResumeGrows(cfg, w, c.sid, c.injection);
      TookChains(w.store, c1, sid, n, c.sid, w.store.states[c.sid]);
    }
  }

  /** With nodes that only edit states, the checkpoints of a session since its Start form a chain, whatever
      other sessions do in between and whatever is lost or panics. */
  lemma {:induction false} SessionChains(cfg: Config, w: World, sid: string, initial: Option<AgentState>, calls: seq<Call>)
    requires EditingNodes(cfg) && Consistent(w.store)
    requires EngineRuns.NeverRestarts(calls, sid)
    ensures Chained(After(cfg, Start(cfg, w, sid, initial).world, calls).store, sid, |Listed(w.store, sid)|)
  {
    if calls == [] {
      assert SessionOk(w.store, sid);
      assert Since(w.store, sid, |Listed(w.store, sid)|) == [];
      CallChains(cfg, w, StartCall(sid, initial), sid, |Listed(w.store, sid)|);
    } else {
      var n := |calls| - 1;
      SessionChains(cfg, w, sid, initial, calls[..n]);
      CallChains(cfg, After(cfg, Start(cfg, w, sid, initial).world, calls[..n]), calls[n], sid, |Listed(w.store, sid)|);
    }
  }

  lemma ChainedDiffsPatch(c: Contents, sid: string, n: nat, render: Value -> string, i: nat, j: nat)
    requires Chained(c, sid, n)
    requires n <= i <= j < |Listed(c, sid)|
    ensures var l := Listed(c, sid);
            && l[i].checkpointID in c.data && l[j].checkpointID in c.data
            && var a, b := c.data[l[i].checkpointID], c.data[l[j].checkpointID];
               SameContents(Patch(a, Diff(a, b, render)), b) <==> RenderedFaithfully(a, b, render)
  {
    var h := Since(c, sid, n);
    assert Extends(h[i - n], h[j - n]);
    PatchRestoresIff(h[i - n], h[j - n], render);
  }

  /** So for any earlier and later checkpoint of the session, patching the earlier one with their diff gives
      the later one's messages, variables and artifacts, exactly when no variable changed between the two
      without changing how it renders. */
  lemma SessionDiffsPatch(cfg: Config, w: World, sid: string, initial: Option<AgentState>, calls: seq<Call>,
      render: Value -> string, i: nat, j: nat)
    requires EditingNodes(cfg) && Consistent(w.store)
    requires EngineRuns.NeverRestarts(calls, sid)
    requires |Listed(w.store, sid)| <= i <= j < |Listed(After(cfg, Start(cfg, w, sid, initial).world, calls).store, sid)|
    ensures var c := After(cfg, Start(cfg, w, sid, initial).world, calls).store;
            var l := Listed(c, sid);
            && l[i].checkpointID in c.data && l[j].checkpointID in c.data
            && var a, b := c.data[l[i].checkpointID], c.data[l[j].checkpointID];
               SameContents(Patch(a, Diff(a, b, render)), b) <==> RenderedFaithfully(a, b, render)
  {
    SessionChains(cfg, w, sid, initial, calls);
    ChainedDiffsPatch(After(cfg, Start(cfg, w, sid, initial).world, calls).store, sid, |Listed(w.store, sid)|, render, i, j);
  }
}
