/** What a session does whose snapshots are lost. The engine drops the error of every save but the one of a
    state that was already finished: at a pause, at a failure and at a completion alike. */
module EngineLimits {
  import opened Core
  import opened Retry
  import opened Graphs
  import opened Store
  import opened Engine
  import opened EngineRuns

  const SID := "s"

  /** Pauses on every call, and from its second step on keeps a variable that cannot be marshalled. */
  function Pausing(k: nat, st: AgentState): Attempt<Reply> {
    Ok(Reply(Some(if st.stepCount >= 1 then st.WithVariable("handle", Nil) else st), [], Some(Interrupt(map[], ""))))
  }

  function NoRoute(k: nat, st: AgentState): Attempt<string> {
    Ok("")
  }

  function NeverDone(k: nat): bool {
    false
  }

  function WithoutHandle(st: AgentState): bool {
    "handle" !in st.variables
  }

  /** One node that leads to itself, and a budget of two steps. */
  const LOSSY: Config := Config(
    Graph(map["a" := Node("a", Pausing)], [Edge("a", "a", false, NoRoute)], "a", {}),
    2, 1, false, false, NeverDone, WithoutHandle)

  /** The only snapshot the store ever takes. */
  const FIRST_PAUSE: AgentState := NEW_STATE.(stepCount := 1, lastNodeID := "a", status := Paused)

  function Resumes(n: nat): seq<Call> {
    seq(n, i => ResumeCall(SID, map[]))
  }

  lemma OneCall(cfg: Config, id: string, st: AgentState, clock: nat)
    requires id in cfg.graph.nodes && cfg.maxAttempts == 1
    requires cfg.graph.nodes[id].process(clock, st).Ok?
    ensures Attempts(cfg, id, st, clock) == Ran(Success(cfg.graph.nodes[id].process(clock, st).value), 1)
  {
    var fn := Tape(cfg.graph.nodes[id].process, st, clock);
    assert fn(0) == cfg.graph.nodes[id].process(clock, st);
  }

  lemma PauseTurn(w: World, st: AgentState)
    requires st.status == Running && st.stepCount < 2 && st.lastNodeID == "a" && st.taskID == ""
    ensures var r := RunLoop(LOSSY, w, SID, st);
            && r.world.execs == w.execs + [Tagged(SID, Exec("a", 1))]
            && (st.stepCount >= 1 ==> r.world.store == w.store)
            && (st.stepCount < 1 && WithoutHandle(st) ==>
                  Latest(r.world.store, SID) == Some(st.(stepCount := st.stepCount + 1, status := Paused)))
  {
    OneCall(LOSSY, "a", st, w.clock);
  }

  /** The budget theorem needs its condition: here every Resume starts over from the first pause, whose
      successor could not be saved, and the session executes as many nodes as it is resumed, two steps of
      budget or not. */
  lemma {:induction false} LostSnapshotsBreakTheBudget(n: nat)
    ensures var w1 := After(LOSSY, Start(LOSSY, NEW_WORLD, SID, None).world, Resumes(n));
            && |Executed(NEW_WORLD, w1, SID)| == n + 1
            && Latest(w1.store, SID) == Some(FIRST_PAUSE)
    ensures StepsLeft(LOSSY, Prepared(LOSSY, None)) == 2
  {
    var w0 := Start(LOSSY, NEW_WORLD, SID, None).world;
    StartPauses();
    if n == 0 {
      ExecutedOne(NEW_WORLD, NEW_WORLD, w0, "a");
    } else {
      LostSnapshotsBreakTheBudget(n - 1);
      assert Resumes(n)[..n - 1] == Resumes(n - 1);
      var w := After(LOSSY, w0, Resumes(n - 1));
      ResumeStartsOver(w);
      ExecutedOne(NEW_WORLD, w, Resume(LOSSY, w, SID, map[]).world, "a");
    }
  }

  lemma StartPauses()
    ensures var w0 := Start(LOSSY, NEW_WORLD, SID, None).world;
            w0.execs == NEW_WORLD.execs + [Tagged(SID, Exec("a", 1))] && Latest(w0.store, SID) == Some(FIRST_PAUSE)
    ensures StepsLeft(LOSSY, Prepared(LOSSY, None)) == 2
  {
    PauseTurn(NEW_WORLD, Prepared(LOSSY, None));
  }

  lemma ResumeStartsOver(w: World)
    requires Latest(w.store, SID) == Some(FIRST_PAUSE)
    ensures var w1 := Resume(LOSSY, w, SID, map[]).world;
            w1.execs == w.execs + [Tagged(SID, Exec("a", 1))] && w1.store == w.store
  {
    var st := Injected(FIRST_PAUSE, map[]);
    assert FirstEdge(LOSSY.graph.edges, "a") == Some(LOSSY.graph.edges[0]);
    assert st.(lastNodeID := "a") == st;
    PauseTurn(w, st);
  }

  lemma ExecutedOne(w: World, w1: World, w2: World, id: string)
    requires w.execs == [] && w2.execs == w1.execs + [Tagged(SID, Exec(id, 1))]
    ensures |Executed(w, w2, SID)| == |Executed(w, w1, SID)| + 1
  {
    assert w2.execs[0..][..|w1.execs|] == w1.execs[0..];
  }

  // ---- a completion that is not recorded ----

  /** Pauses without any change. */
  function Asking(k: nat, st: AgentState): Attempt<Reply> {
    Ok(Reply(Some(st), [], Some(Interrupt(map[], ""))))
  }

  /** Replies with a variable that cannot be marshalled. */
  function Finishing(k: nat, st: AgentState): Attempt<Reply> {
    Ok(Reply(Some(st.WithVariable("handle", Nil)), [], None))
  }

  /** A node that asks, then a Terminal that finishes. */
  const FORGETFUL: Config := Config(
    Graph(map["a" := Node("a", Asking), "b" := Node("b", Finishing)], [Edge("a", "b", false, NoRoute)], "a", {"b"}),
    9, 1, false, false, NeverDone, WithoutHandle)

  const FINISHED: AgentState :=
    NEW_STATE.(stepCount := 2, lastNodeID := "b", status := Completed, variables := map["handle" := Nil])

  lemma AskingPauses()
    ensures var w0 := Start(FORGETFUL, NEW_WORLD, SID, None).world;
            w0.execs == NEW_WORLD.execs + [Tagged(SID, Exec("a", 1))] && Latest(w0.store, SID) == Some(FIRST_PAUSE)
  {
    OneCall(FORGETFUL, "a", Prepared(FORGETFUL, None), 0);
  }

  const AT_LAST_NODE: AgentState := NEW_STATE.(stepCount := 1, lastNodeID := "b")

  lemma NothingAfterLastNode()
    ensures FirstEdge(FORGETFUL.graph.edges, "b") == None
    ensures FirstEdge(FORGETFUL.graph.edges, "a") == Some(Edge("a", "b", false, NoRoute))
  {
    assert FORGETFUL.graph.edges[1..] == [];
  }

  lemma LastNodeFinishes(w: World)
    ensures var r := RunLoop(FORGETFUL, w, SID, AT_LAST_NODE);
            && r.exit == Returned(FINISHED, None)
            && r.world.execs == w.execs + [Tagged(SID, Exec("b", 1))] && r.world.store == w.store
  {
    NothingAfterLastNode();
    OneCall(FORGETFUL, "b", AT_LAST_NODE, w.clock);
    var ran := Attempts(FORGETFUL, "b", AT_LAST_NODE, w.clock);
    var o := Perform(FORGETFUL, "b", AT_LAST_NODE, ran.verdict);
    assert o == Replied(FINISHED.WithStatus(Running), None, [], None);
    assert !WithoutHandle(FINISHED);
  }

  lemma ResumeFinishes(w: World)
    requires Latest(w.store, SID) == Some(FIRST_PAUSE)
    ensures var r := Resume(FORGETFUL, w, SID, map[]);
            && r.exit == Returned(FINISHED, None)
            && r.world.execs == w.execs + [Tagged(SID, Exec("b", 1))] && r.world.store == w.store
  {
    NothingAfterLastNode();
    var st := Injected(FIRST_PAUSE, map[]);
    assert st.variables == map[];
    assert st.(lastNodeID := "b") == AT_LAST_NODE;
    assert ResolveNext(FORGETFUL, w, st) == Resolved(Ok("b"), w);
    LastNodeFinishes(w);
  }

  /** Every Resume of this session reports completion without an error, the store shows it Paused all along,
      and the finishing node is executed once per Resume. */
  lemma {:induction false} LostCompletionRepeats(n: nat)
    ensures var w1 := After(FORGETFUL, Start(FORGETFUL, NEW_WORLD, SID, None).world, Resumes(n));
            && Latest(w1.store, SID) == Some(FIRST_PAUSE)
            && Resume(FORGETFUL, w1, SID, map[]).exit == Returned(FINISHED, None)
            && |Executed(NEW_WORLD, w1, SID)| == n + 1
  {
    var w0 := Start(FORGETFUL, NEW_WORLD, SID, None).world;
    AskingPauses();
    if n == 0 {
      ExecutedOne(NEW_WORLD, NEW_WORLD, w0, "a");
    } else {
      LostCompletionRepeats(n - 1);
      assert Resumes(n)[..n - 1] == Resumes(n - 1);
      var w := After(FORGETFUL, w0, Resumes(n - 1));
      ResumeFinishes(w);
      ExecutedOne(NEW_WORLD, w, Resume(FORGETFUL, w, SID, map[]).world, "b");
    }
    ResumeFinishes(After(FORGETFUL, w0, Resumes(n)));
  }
}
