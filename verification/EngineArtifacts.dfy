/** Conservation of artifacts: what a session posts to the task store is what its states gained. */
module EngineArtifacts {
  import opened Core
  import opened Retry
  import opened Graphs
  import opened Store
  import opened Engine
  import EngineRuns
  import EngineExits
  import opened EngineBudget

  /** The reply keeps the task and only appends artifacts to the state the node was given. */
  predicate AppendsTo(st: AgentState, a: Attempt<Reply>) {
    a.Ok? && a.value.Reply? && a.value.state.Some? ==>
      st.artifacts <= a.value.state.value.artifacts && a.value.state.value.taskID == st.taskID
  }

  ghost predicate AppendOnly(cfg: Config) {
    forall id, k, st :: id in cfg.graph.nodes ==> AppendsTo(st, cfg.graph.nodes[id].process(k, st))
  }

  /** From `st` in `w` the session came to `st1` in `w1`, posting exactly the artifacts gained on the way. */
  predicate Conserved(w: World, st: AgentState, w1: World, st1: AgentState, sid: string) {
    && st.artifacts <= st1.artifacts && st1.taskID == st.taskID
    && w1.posts == w.posts + PostsOf(sid, st.taskID, st1.artifacts[|st.artifacts|..])
  }

  lemma ConservedTransitive(a: World, sa: AgentState, b: World, sb: AgentState, c: World, sc: AgentState, sid: string)
    requires Conserved(a, sa, b, sb, sid) && Conserved(b, sb, c, sc, sid)
    ensures Conserved(a, sa, c, sc, sid)
  {
    var x, y := sb.artifacts[|sa.artifacts|..], sc.artifacts[|sb.artifacts|..];
    assert sb.artifacts == sc.artifacts[..|sb.artifacts|];
    assert sc.artifacts[|sa.artifacts|..] == x + y;
    assert PostsOf(sid, sa.taskID, x + y) == PostsOf(sid, sa.taskID, x) + PostsOf(sid, sa.taskID, y);
  }

  lemma DecideKeepsPosts(cfg: Config, w: World, sid: string, id: string, st: AgentState, o: Outcome)
    ensures Decide(cfg, w, sid, id, st, o).world.posts == w.posts
  {
  }

  /** The two states agree on artifacts and task. */
  predicate SameWork(a: AgentState, b: AgentState) {
    a.artifacts == b.artifacts && a.taskID == b.taskID
  }

  /** The store stayed as it was or took a snapshot of this session with the work of `st`. */
  ghost predicate TookWork(c: Contents, c1: Contents, sid: string, st: AgentState) {
    c1 == c || exists x :: SameWork(x, st) && c1 == Put(c, sid, x)
  }

  /** A turn that has come to the work of `st`: what it goes on with, returns and stores. */
  ghost predicate EndsWith(w: World, sid: string, st: AgentState, s: Step) {
    && TookWork(w.store, s.world.store, sid, st)
    && (s.Continue? ==> s.world.store == w.store && SameWork(s.state, st))
    && (s.Stop? && s.exit.Returned? ==> SameWork(s.exit.state, st))
  }

  lemma DecideEndsWith(cfg: Config, w: World, sid: string, id: string, st: AgentState, o: Outcome)
    ensures EndsWith(w, sid, if o.Replied? then o.state else st, Decide(cfg, w, sid, id, st, o))
  {
    var before := if o.Replied? then o.state else st;
    assert SameWork(before, before);
  }

  /** The work a turn comes to: that of its reply, or none if it failed. */
  lemma TurnConserves(cfg: Config, w: World, sid: string, st: AgentState) returns (st1: AgentState)
    requires AppendOnly(cfg) && cfg.hasTaskStore && st.taskID != ""
    ensures Conserved(w, st, Iterate(cfg, w, sid, st).world, st1, sid)
    ensures EndsWith(w, sid, st1, Iterate(cfg, w, sid, st))
  {
    assert st.artifacts[|st.artifacts|..] == [];
    st1 := st;
    if Performs(cfg, st) {
      var id := st.lastNodeID;
      var o := OutcomeOf(cfg, w, st);
      var v := Attempts(cfg, id, st, w.clock).verdict;
      EngineExits.VerdictFromNode(cfg, id, st, w.clock);
      assert v.Success? ==> AppendsTo(st, Ok(v.value));
      DecideKeepsPosts(cfg, Accounted(cfg, w, sid, st), sid, id, st, o);
      DecideEndsWith(cfg, Accounted(cfg, w, sid, st), sid, id, st, o);
      if o.Replied? {
        st1 := o.state;
      }
    }
  }

  lemma ConservedSameWork(w: World, sa: AgentState, w1: World, sb: AgentState, sc: AgentState, sid: string)
    requires Conserved(w, sa, w1, sb, sid) && SameWork(sb, sc)
    ensures Conserved(w, sa, w1, sc, sid)
  {
  }

  /** A run posts exactly the artifacts gained by the work it comes to, in order; that work is what it returns
      and what it stores, if it returns or stores anything. */
  lemma {:induction false} RunConserves(cfg: Config, w: World, sid: string, st: AgentState) returns (st1: AgentState)
    requires AppendOnly(cfg) && cfg.hasTaskStore && st.taskID != ""
    ensures var r := RunLoop(cfg, w, sid, st);
            && Conserved(w, st, r.world, st1, sid) && TookWork(w.store, r.world.store, sid, st1)
            && (r.exit.Returned? ==> SameWork(r.exit.state, st1))
    decreases StepsLeft(cfg, st)
  {
    TurnUsesOneStep(cfg, w, sid, st);
    st1 := TurnConserves(cfg, w, sid, st);
    match Iterate(cfg, w, sid, st) {
      case Stop(_, _) =>
      case Continue(next, w1) =>
        var mid := st1;
        ConservedSameWork(w, st, w1, mid, next, sid);
        st1 := RunConserves(cfg, w1, sid, next);
        ConservedTransitive(w, st, w1, next, RunLoop(cfg, w1, sid, next).world, st1, sid);
    }
  }

  /** A Resume continues from the paused snapshot: it posts what is gained beyond that. */
  lemma ResumeConserves(cfg: Config, w: World, sid: string, injection: map<string, Value>) returns (st1: AgentState)
    requires AppendOnly(cfg) && cfg.hasTaskStore
    requires sid in w.store.states && w.store.states[sid].taskID != ""
    ensures var w1 := Resume(cfg, w, sid, injection).world;
            Conserved(w, w.store.states[sid], w1, st1, sid) && TookWork(w.store, w1.store, sid, st1)
  {
    var saved := w.store.states[sid];
    assert saved.artifacts[|saved.artifacts|..] == [];
    st1 := saved;
    if saved.status == Paused {
      var st := Injected(saved, injection);
      var r := ResolveNext(cfg, w, st);
      if r.route.Ok? && r.route.value != "" {
        st1 := RunConserves(cfg, r.world, sid, st.(lastNodeID := r.route.value));
      } else if r.route.Ok? && st.lastNodeID in cfg.graph.terminals {
        assert SameWork(st.WithStatus(Completed), saved);
      }
    }
  }

  // ---- other sessions ----

  /** Whoever posts, posts under its own session. */
  ghost predicate PostsAs(w: World, w1: World, sid: string) {
    && |w.posts| <= |w1.posts| && w1.posts[..|w.posts|] == w.posts
    && forall i :: |w.posts| <= i < |w1.posts| ==> w1.posts[i].session == sid
  }

  lemma TurnPostsAs(cfg: Config, w: World, sid: string, st: AgentState)
    ensures PostsAs(w, Iterate(cfg, w, sid, st).world, sid)
  {
    if st.status != Failed && st.status != Completed && st.stepCount < cfg.maxSteps && st.lastNodeID in cfg.graph.nodes {
      var id := st.lastNodeID;
      var ran := Attempts(cfg, id, st, w.clock);
      var o := Perform(cfg, id, st, ran.verdict);
      DecideKeepsPosts(cfg, Account(cfg, w, sid, id, st, ran.calls, o), sid, id, st, o);
    }
  }

  lemma PostsAsTransitive(a: World, b: World, c: World, sid: string)
    requires PostsAs(a, b, sid) && PostsAs(b, c, sid)
    ensures PostsAs(a, c, sid)
  {
    assert c.posts[..|a.posts|] == c.posts[..|b.posts|][..|a.posts|];
    forall i | |a.posts| <= i < |b.posts| ensures c.posts[i] == b.posts[i] {
      assert c.posts[i] == c.posts[..|b.posts|][i];
    }
  }

  lemma {:induction false} RunPostsAs(cfg: Config, w: World, sid: string, st: AgentState)
    ensures PostsAs(w, RunLoop(cfg, w, sid, st).world, sid)
    decreases StepsLeft(cfg, st)
  {
    TurnUsesOneStep(cfg, w, sid, st);
    TurnPostsAs(cfg, w, sid, st);
    match Iterate(cfg, w, sid, st) {
      case Stop(_, _) =>
      case Continue(st1, w1) =>
        RunPostsAs(cfg, w1, sid, st1);
        PostsAsTransitive(w, w1, RunLoop(cfg, w1, sid, st1).world, sid);
    }
  }

  lemma CallPostsAs(cfg: Config, w: World, c: Call)
    ensures PostsAs(w, Apply(cfg, w, c).world, c.sid)
  {
    match c
    case StartCall(sid, initial) => RunPostsAs(cfg, w, sid, Prepared(cfg, initial));
    case ResumeCall(sid, injection) =>
      var l := Latest(w.store, sid);
      if l.Some? && l.value.status == Paused {
        var st := Injected(l.value, injection);
        var r := ResolveNext(cfg, w, st);
        if r.route.Ok? && r.route.value != "" {
          RunPostsAs(cfg, r.world, sid, st.(lastNodeID := r.route.value));
        }
      }
  }

  lemma {:induction false} OfForeign<T>(log: seq<Tagged<T>>, who: string, sid: string)
    requires who != sid && forall i :: 0 <= i < |log| ==> log[i].session == who
    ensures Of(log, sid) == []
  {
    if log != [] {
      OfForeign(log[..|log| - 1], who, sid);
    }
  }

  // ---- whole sessions ----

  function Gained(taskID: string, from: AgentState, to: AgentState): seq<Post>
    requires |from.artifacts| <= |to.artifacts|
  {
    seq(|to.artifacts| - |from.artifacts|,
        i requires 0 <= i < |to.artifacts| - |from.artifacts| => Post(taskID, to.artifacts[|from.artifacts| + i]))
  }

  lemma {:induction false} OfPosts(sid: string, taskID: string, artifacts: seq<Artifact>)
    ensures Of(PostsOf(sid, taskID, artifacts), sid)
         == seq(|artifacts|, i requires 0 <= i < |artifacts| => Post(taskID, artifacts[i]))
  {
    if artifacts != [] {
      var n := |artifacts| - 1;
      OfPosts(sid, taskID, artifacts[..n]);
      assert PostsOf(sid, taskID, artifacts)[..n] == PostsOf(sid, taskID, artifacts[..n]);
    }
  }

  /** Since `w`, where it stood at `st`, the session has posted exactly what its latest snapshot gained. */
  ghost predicate InStep(w: World, st: AgentState, w1: World, sid: string) {
    && |w.posts| <= |w1.posts| && w1.posts[..|w.posts|] == w.posts
    && sid in w1.store.states
    && st.artifacts <= w1.store.states[sid].artifacts
    && w1.store.states[sid].taskID == st.taskID
    && Of(w1.posts[|w.posts|..], sid) == Gained(st.taskID, st, w1.store.states[sid])
  }

  lemma GainedGrows(taskID: string, st: AgentState, s1: AgentState, s2: AgentState)
    requires st.artifacts <= s1.artifacts <= s2.artifacts
    ensures st.artifacts <= s2.artifacts
    ensures var more := s2.artifacts[|s1.artifacts|..];
            var posts := seq(|more|, i requires 0 <= i < |more| => Post(taskID, more[i]));
            Gained(taskID, st, s2) == Gained(taskID, st, s1) + posts
  {
    assert s1.artifacts == s2.artifacts[..|s1.artifacts|];
    assert st.artifacts == s1.artifacts[..|st.artifacts|];
  }

  lemma InStepOwnCall(w: World, st: AgentState, w1: World, w2: World, sid: string)
    requires InStep(w, st, w1, sid)
    requires sid in w2.store.states
    requires Conserved(w1, w1.store.states[sid], w2, w2.store.states[sid], sid)
    ensures InStep(w, st, w2, sid)
  {
    var s1, s2 := w1.store.states[sid], w2.store.states[sid];
    var more := s2.artifacts[|s1.artifacts|..];
    var added := PostsOf(sid, s1.taskID, more);
    assert w2.posts == w1.posts + added;
    assert w2.posts[..|w.posts|] == w1.posts[..|w.posts|];
    assert w2.posts[|w.posts|..] == w1.posts[|w.posts|..] + added;
    OfConcat(w1.posts[|w.posts|..], added, sid);
    OfPosts(sid, s1.taskID, more);
    GainedGrows(st.taskID, st, s1, s2);
  }

  lemma InStepForeignCall(w: World, st: AgentState, w1: World, w2: World, who: string, sid: string)
    requires InStep(w, st, w1, sid) && who != sid
    requires PostsAs(w1, w2, who) && Latest(w2.store, sid) == Latest(w1.store, sid)
    ensures InStep(w, st, w2, sid)
  {
    var added := w2.posts[|w1.posts|..];
    assert w2.posts[|w.posts|..] == w1.posts[|w.posts|..] + added;
    assert w2.posts[..|w.posts|] == w2.posts[..|w1.posts|][..|w.posts|];
    OfConcat(w1.posts[|w.posts|..], added, sid);
    OfForeign(added, who, sid);
  }

  // ---- the ledger of posts ----

  /** Posts of a call that no snapshot records. */
  function PostsLostBy(cfg: Config, w: World, c: Call): nat {
    var w1 := Apply(cfg, w, c).world;
    if Stored(w, w1) || |w1.posts| <= |w.posts| then 0 else |w1.posts| - |w.posts|
  }

  /** Posts of session `sid`, over these calls, that no snapshot records. */
  function PostsLost(cfg: Config, w: World, calls: seq<Call>, sid: string): nat {
    if calls == [] then 0
    else
      var c := calls[|calls| - 1];
      PostsLost(cfg, w, calls[..|calls| - 1], sid)
      + if c.sid == sid then PostsLostBy(cfg, After(cfg, w, calls[..|calls| - 1]), c) else 0
  }

  /** Since `w`, where it stood at `st`, the session has posted as many artifacts as its latest snapshot gained
      and as were lost on the way; with none lost, they are the very ones. */
  ghost predicate PostsBalance(w: World, st: AgentState, w1: World, sid: string, lost: nat) {
    && |w.posts| <= |w1.posts| && w1.posts[..|w.posts|] == w.posts
    && sid in w1.store.states
    && st.artifacts <= w1.store.states[sid].artifacts && w1.store.states[sid].taskID == st.taskID
    && |Of(w1.posts[|w.posts|..], sid)| == |w1.store.states[sid].artifacts| - |st.artifacts| + lost
    && (lost == 0 ==> InStep(w, st, w1, sid))
  }

  lemma OwnPostsCount(w: World, w1: World, w2: World, sid: string, taskID: string, more: seq<Artifact>)
    requires |w.posts| <= |w1.posts| && w1.posts[..|w.posts|] == w.posts
    requires w2.posts == w1.posts + PostsOf(sid, taskID, more)
    ensures |w.posts| <= |w2.posts| && w2.posts[..|w.posts|] == w.posts
    ensures |Of(w2.posts[|w.posts|..], sid)| == |Of(w1.posts[|w.posts|..], sid)| + |more|
  {
    var added := PostsOf(sid, taskID, more);
    assert w2.posts[..|w.posts|] == w1.posts[..|w.posts|];
    assert w2.posts[|w.posts|..] == w1.posts[|w.posts|..] + added;
    OfConcat(w1.posts[|w.posts|..], added, sid);
    OfPosts(sid, taskID, more);
  }

  lemma OwnCallBalances(cfg: Config, w: World, st: AgentState, w1: World, sid: string, injection: map<string, Value>, lost: nat)
    requires AppendOnly(cfg) && cfg.hasTaskStore && st.taskID != ""
    requires PostsBalance(w, st, w1, sid, lost)
    ensures PostsBalance(w, st, Resume(cfg, w1, sid, injection).world, sid,
                         lost + PostsLostBy(cfg, w1, ResumeCall(sid, injection)))
  {
    var w2 := Resume(cfg, w1, sid, injection).world;
    var saved := w1.store.states[sid];
    var st1 := ResumeConserves(cfg, w1, sid, injection);
    var more := st1.artifacts[|saved.artifacts|..];
    OwnPostsCount(w, w1, w2, sid, saved.taskID, more);
    if Stored(w1, w2) {
      assert SameWork(w2.store.states[sid], st1);
      ConservedSameWork(w1, saved, w2, st1, w2.store.states[sid], sid);
      PrefixTransitive(st.artifacts, saved.artifacts, st1.artifacts);
      if lost == 0 {
        InStepOwnCall(w, st, w1, w2, sid);
      }
    } else {
      assert w2.store == w1.store;
      if more == [] {
        assert w2.posts == w1.posts;
      }
    }
  }

  lemma PrefixTransitive<T>(a: seq<T>, b: seq<T>, c: seq<T>)
    requires a <= b && b <= c
    ensures a <= c
  {
    assert a == c[..|b|][..|a|];
  }

  lemma ForeignCallBalances(w: World, st: AgentState, w1: World, w2: World, who: string, sid: string, lost: nat)
    requires PostsBalance(w, st, w1, sid, lost) && who != sid
    requires PostsAs(w1, w2, who) && Latest(w2.store, sid) == Latest(w1.store, sid)
    ensures PostsBalance(w, st, w2, sid, lost)
  {
    var added := w2.posts[|w1.posts|..];
    assert w2.posts[|w.posts|..] == w1.posts[|w.posts|..] + added;
    assert w2.posts[..|w.posts|] == w2.posts[..|w1.posts|][..|w.posts|];
    OfConcat(w1.posts[|w.posts|..], added, sid);
    OfForeign(added, who, sid);
    if lost == 0 {
      InStepForeignCall(w, st, w1, w2, who, sid);
    }
  }

  lemma StartBalancesPosts(cfg: Config, w: World, sid: string, initial: Option<AgentState>)
    requires AppendOnly(cfg) && cfg.hasTaskStore && Prepared(cfg, initial).taskID != ""
    requires Stored(w, Start(cfg, w, sid, initial).world)
    ensures PostsBalance(w, Prepared(cfg, initial), Start(cfg, w, sid, initial).world, sid, 0)
  {
    var st := Prepared(cfg, initial);
    var w0 := Start(cfg, w, sid, initial).world;
    var st1 := RunConserves(cfg, w, sid, st);
    assert SameWork(w0.store.states[sid], st1);
    var more := st1.artifacts[|st.artifacts|..];
    assert w0.posts[|w.posts|..] == PostsOf(sid, st.taskID, more);
    OfPosts(sid, st.taskID, more);
  }

  lemma {:induction false} CallsBalancePosts(cfg: Config, w: World, st: AgentState, w0: World, sid: string, calls: seq<Call>)
    requires AppendOnly(cfg) && cfg.hasTaskStore && st.taskID != ""
    requires PostsBalance(w, st, w0, sid, 0) && EngineRuns.NeverRestarts(calls, sid)
    ensures PostsBalance(w, st, After(cfg, w0, calls), sid, PostsLost(cfg, w0, calls, sid))
  {
    if calls != [] {
      var n := |calls| - 1;
      var w1 := After(cfg, w0, calls[..n]);
      CallsBalancePosts(cfg, w, st, w0, sid, calls[..n]);
      if calls[n].sid == sid {
        OwnCallBalances(cfg, w, st, w1, sid, calls[n].injection, PostsLost(cfg, w0, calls[..n], sid));
      } else {
        CallPostsAs(cfg, w1, calls[n]);
        EngineRuns.CallEffect(cfg, w1, calls[n]);
        ForeignCallBalances(w, st, w1, Apply(cfg, w1, calls[n]).world, calls[n].sid, sid, PostsLost(cfg, w0, calls[..n], sid));
      }
    }
  }

  /** Conservation over a session: with append-only nodes, a task, a task store, and a Start that stored a
      snapshot, the artifacts a session posts over its Start and all its Resumes are as many as its latest
      snapshot holds beyond the initial ones, and those of calls that stored none. They are exactly those, in
      order, each once, under the session's task, exactly when no post was lost; retried attempts, pauses,
      refused Resumes and the calls of other sessions contribute nothing. */
  lemma ArtifactConservation(cfg: Config, w: World, sid: string, initial: Option<AgentState>, calls: seq<Call>)
    requires AppendOnly(cfg) && cfg.hasTaskStore && Prepared(cfg, initial).taskID != ""
    requires EngineRuns.NeverRestarts(calls, sid)
    requires Stored(w, Start(cfg, w, sid, initial).world)
    ensures var st := Prepared(cfg, initial);
            var w0 := Start(cfg, w, sid, initial).world;
            var w1 := After(cfg, w0, calls);
            var lost := PostsLost(cfg, w0, calls, sid);
            && |w.posts| <= |w1.posts| && sid in w1.store.states
            && |Of(w1.posts[|w.posts|..], sid)| == |w1.store.states[sid].artifacts| - |st.artifacts| + lost
            && (InStep(w, st, w1, sid) <==> lost == 0)
  {
    var w0 := Start(cfg, w, sid, initial).world;
    StartBalancesPosts(cfg, w, sid, initial);
    CallsBalancePosts(cfg, w, Prepared(cfg, initial), w0, sid, calls);
  }

  // ---- without faults ----

  lemma {:induction false} FaultFreePostsLost(cfg: Config, w: World, calls: seq<Call>, sid: string)
    requires EngineRuns.NeverRestarts(calls, sid) && After(cfg, w, calls).faults == w.faults
    ensures PostsLost(cfg, w, calls, sid) == 0
  {
    if calls != [] {
      var n := |calls| - 1;
      var w1 := After(cfg, w, calls[..n]);
      EngineRuns.FaultsGrow(cfg, w, calls[..n]);
      EngineRuns.CallEffect(cfg, w1, calls[n]);
      FaultFreePostsLost(cfg, w, calls[..n], sid);
      if calls[n].sid == sid {
        FaultFreeResumePosts(cfg, w1, sid, calls[n].injection);
      }
    }
  }

  lemma FaultFreeResumePosts(cfg: Config, w: World, sid: string, injection: map<string, Value>)
    requires Resume(cfg, w, sid, injection).world.faults == w.faults
    ensures PostsLostBy(cfg, w, ResumeCall(sid, injection)) == 0
  {
    EngineExits.ResumeContract(cfg, w, sid, injection);
    var l := Latest(w.store, sid);
    if l.Some? && l.value.status == Paused {
      ResumeKeeps(cfg, w, sid, injection);
    }
  }

  /** Without faults, in particular with the nodes and the store of EngineExits.FaultFree, every artifact is
      conserved. */
  lemma FaultFreeConservation(cfg: Config, w: World, sid: string, initial: Option<AgentState>, calls: seq<Call>)
    requires AppendOnly(cfg) && cfg.hasTaskStore && Prepared(cfg, initial).taskID != ""
    requires EngineRuns.NeverRestarts(calls, sid)
    requires After(cfg, Start(cfg, w, sid, initial).world, calls).faults == w.faults
    ensures InStep(w, Prepared(cfg, initial), After(cfg, Start(cfg, w, sid, initial).world, calls), sid)
  {
    var w0 := Start(cfg, w, sid, initial).world;
    EngineRuns.RunEffect(cfg, w, sid, Prepared(cfg, initial));
    EngineRuns.FaultsGrow(cfg, w0, calls);
    RunKeeps(cfg, w, sid, Prepared(cfg, initial));
    FaultFreePostsLost(cfg, w0, calls, sid);
    ArtifactConservation(cfg, w, sid, initial, calls);
  }
}
