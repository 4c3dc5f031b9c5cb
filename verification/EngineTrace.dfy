/** The engine's hook trace: well bracketed, in step with the execution log, and what the latency hook
    makes of it. */
module EngineTrace {
  import opened Core
  import opened Hooks
  import opened Store
  import opened Engine
  import EngineRuns

  /** Bracket j of the trace belongs to execution j of the log. */
  ghost predicate Mirrors(hooks: seq<Meta>, execs: seq<Tagged<Exec>>) {
    && |hooks| == 2 * |execs|
    && forall j :: 0 <= j < |execs| ==> PairOf(hooks[2 * j], hooks[2 * j + 1], execs[j].item)
  }

  predicate PairOf(open: Meta, close: Meta, e: Exec) {
    IsBracket(open, close) && open.nodeID == e.nodeID
  }

  /** Between two worlds the trace and the execution log grew together. */
  ghost predicate GrewTogether(w: World, w1: World) {
    && |w.hooks| <= |w1.hooks| && w1.hooks[..|w.hooks|] == w.hooks
    && |w.execs| <= |w1.execs| && w1.execs[..|w.execs|] == w.execs
    && Mirrors(w1.hooks[|w.hooks|..], w1.execs[|w.execs|..])
  }

  lemma GrewTogetherTransitive(a: World, b: World, c: World)
    requires GrewTogether(a, b) && GrewTogether(b, c)
    ensures GrewTogether(a, c)
  {
    var h1, h2 := b.hooks[|a.hooks|..], c.hooks[|b.hooks|..];
    var e1, e2 := b.execs[|a.execs|..], c.execs[|b.execs|..];
    assert c.hooks[|a.hooks|..] == h1 + h2 && c.execs[|a.execs|..] == e1 + e2;
    assert c.hooks[..|a.hooks|] == c.hooks[..|b.hooks|][..|a.hooks|];
    assert c.execs[..|a.execs|] == c.execs[..|b.execs|][..|a.execs|];
    var e: seq<Tagged<Exec>> := e1 + e2;
    forall j | 0 <= j < |e| ensures PairOf((h1 + h2)[2 * j], (h1 + h2)[2 * j + 1], e[j].item) {
      if j >= |e1| {
        var i := j - |e1|;
        assert PairOf(h2[2 * i], h2[2 * i + 1], e2[i].item);
        assert (h1 + h2)[2 * j] == h2[2 * i] && (h1 + h2)[2 * j + 1] == h2[2 * i + 1];
      } else {
        assert PairOf(h1[2 * j], h1[2 * j + 1], e1[j].item);
      }
    }
  }

  /** The turn's logs are those of accounting; deciding what comes next adds nothing to them. */
  lemma DecideKeepsTrace(cfg: Config, w: World, sid: string, id: string, st: AgentState, o: Outcome)
    ensures Decide(cfg, w, sid, id, st, o).world.hooks == w.hooks
    ensures Decide(cfg, w, sid, id, st, o).world.execs == w.execs
    ensures Decide(cfg, w, sid, id, st, o).world.faults >= w.faults
  {
  }

  lemma AccountBrackets(cfg: Config, w: World, sid: string, st: AgentState, calls: nat, o: Outcome)
    requires !o.Crash?
    ensures var a := Account(cfg, w, sid, st.lastNodeID, st, calls, o);
            && GrewTogether(w, a) && |a.execs| == |w.execs| + 1
            && a.hooks[|w.hooks|].stepCount == st.stepCount
            && (o.Errored? <==> a.hooks[|w.hooks| + 1].point == OnError)
  {
    var a := Account(cfg, w, sid, st.lastNodeID, st, calls, o);
    assert a.hooks[|w.hooks|..] == [Meta(BeforeNode, st.lastNodeID, st.stepCount, None)] + Closing(st.lastNodeID, st, o);
    assert a.execs[|w.execs|..] == [Tagged(sid, Exec(st.lastNodeID, calls))];
  }

  lemma SameLogsGrewTogether(w: World, w1: World)
    requires w1.hooks == w.hooks && w1.execs == w.execs
    ensures GrewTogether(w, w1)
  {
    assert w1.hooks[|w.hooks|..] == [] && w1.execs[|w.execs|..] == [];
  }

  lemma TurnBrackets(cfg: Config, w: World, sid: string, st: AgentState)
    requires var s := Iterate(cfg, w, sid, st);
             s.Stop? ==> !s.exit.Panicked?
    ensures var w1 := Iterate(cfg, w, sid, st).world;
            && GrewTogether(w, w1) && |w1.execs| - |w.execs| <= 1
            && (|w1.execs| > |w.execs| ==> w1.hooks[|w.hooks|].stepCount == st.stepCount)
  {
    if st.status != Failed && st.status != Completed && st.stepCount < cfg.maxSteps && st.lastNodeID in cfg.graph.nodes {
      var id := st.lastNodeID;
      var ran := Attempts(cfg, id, st, w.clock);
      var o := Perform(cfg, id, st, ran.verdict);
      DecideKeepsTrace(cfg, Account(cfg, w, sid, id, st, ran.calls, o), sid, id, st, o);
      AccountBrackets(cfg, w, sid, st, ran.calls, o);
    } else {
      SameLogsGrewTogether(w, Iterate(cfg, w, sid, st).world);
    }
  }

  /** Bracket j between the two worlds was opened at step count k + j. */
  ghost predicate NumberedFrom(w: World, w1: World, k: int) {
    && GrewTogether(w, w1)
    && forall j :: 0 <= j < |w1.execs| - |w.execs| ==> w1.hooks[|w.hooks| + 2 * j].stepCount == k + j
  }

  lemma NumberedOnce(w: World, w1: World, k: int)
    requires GrewTogether(w, w1) && |w1.execs| - |w.execs| <= 1
    requires |w1.execs| > |w.execs| ==> w1.hooks[|w.hooks|].stepCount == k
    ensures NumberedFrom(w, w1, k)
  {
  }

  lemma NumberedStep(w: World, w1: World, w2: World, k: int)
    requires NumberedFrom(w, w1, k) && |w1.execs| == |w.execs| + 1
    requires NumberedFrom(w1, w2, k + 1)
    ensures NumberedFrom(w, w2, k)
  {
    GrewTogetherTransitive(w, w1, w2);
    forall j | 0 <= j < |w2.execs| - |w.execs|
      ensures w2.hooks[|w.hooks| + 2 * j].stepCount == k + j
    {
      if j == 0 {
        assert w2.hooks[|w.hooks|] == w2.hooks[..|w1.hooks|][|w.hooks|];
      } else {
        assert |w1.hooks| == |w.hooks| + 2;
        assert w2.hooks[|w1.hooks| + 2 * (j - 1)].stepCount == k + 1 + (j - 1);
      }
    }
  }

  /** A run that does not panic reports every execution as one bracket, the j-th at step count StepCount0 + j. */
  lemma {:induction false} RunBrackets(cfg: Config, w: World, sid: string, st: AgentState)
    requires !RunLoop(cfg, w, sid, st).exit.Panicked?
    ensures NumberedFrom(w, RunLoop(cfg, w, sid, st).world, st.stepCount)
    decreases StepsLeft(cfg, st)
  {
    TurnUsesOneStep(cfg, w, sid, st);
    EngineRuns.TurnEffect(cfg, w, sid, st);
    match Iterate(cfg, w, sid, st) {
      case Stop(_, w1) =>
        TurnBrackets(cfg, w, sid, st);
        NumberedOnce(w, w1, st.stepCount);
      case Continue(st1, w1) =>
        TurnBrackets(cfg, w, sid, st);
        NumberedOnce(w, w1, st.stepCount);
        RunBrackets(cfg, w1, sid, st1);
        NumberedStep(w, w1, RunLoop(cfg, w1, sid, st1).world, st.stepCount);
    }
  }

  lemma CallBrackets(cfg: Config, w: World, c: Call)
    requires !Apply(cfg, w, c).exit.Panicked?
    ensures GrewTogether(w, Apply(cfg, w, c).world)
  {
    SameLogsGrewTogether(w, w);
    match c
    case StartCall(sid, initial) => RunBrackets(cfg, w, sid, Prepared(cfg, initial));
    case ResumeCall(sid, injection) => ResumeBrackets(cfg, w, sid, injection);
  }

  lemma ResumeBrackets(cfg: Config, w: World, sid: string, injection: map<string, Value>)
    requires !Resume(cfg, w, sid, injection).exit.Panicked?
    ensures GrewTogether(w, Resume(cfg, w, sid, injection).world)
  {
    var l := Latest(w.store, sid);
    if l.Some? && l.value.status == Paused {
      var st := Injected(l.value, injection);
      var r := ResolveNext(cfg, w, st);
      SameLogsGrewTogether(w, r.world);
      if r.route.Ok? && r.route.value != "" {
        RunBrackets(cfg, r.world, sid, st.(lastNodeID := r.route.value));
        GrewTogetherTransitive(w, r.world, Resume(cfg, w, sid, injection).world);
      } else {
        SameLogsGrewTogether(w, Resume(cfg, w, sid, injection).world);
      }
    } else {
      SameLogsGrewTogether(w, w);
    }
  }

  /** None of these calls panics. */
  ghost predicate NonePanics(cfg: Config, w: World, calls: seq<Call>) {
    forall k :: 0 <= k < |calls| ==> !Apply(cfg, After(cfg, w, calls[..k]), calls[k]).exit.Panicked?
  }

  lemma NonePanicsBefore(cfg: Config, w: World, calls: seq<Call>)
    requires NonePanics(cfg, w, calls) && calls != []
    ensures NonePanics(cfg, w, calls[..|calls| - 1])
    ensures !Apply(cfg, After(cfg, w, calls[..|calls| - 1]), calls[|calls| - 1]).exit.Panicked?
  {
    var before := calls[..|calls| - 1];
    forall k | 0 <= k < |before| ensures !Apply(cfg, After(cfg, w, before[..k]), before[k]).exit.Panicked? {
      assert before[..k] == calls[..k] && before[k] == calls[k];
    }
  }

  lemma {:induction false} CallsBracket(cfg: Config, w: World, calls: seq<Call>)
    requires NonePanics(cfg, w, calls)
    ensures GrewTogether(w, After(cfg, w, calls))
  {
    if calls == [] {
      SameLogsGrewTogether(w, w);
    } else {
      var n := |calls| - 1;
      var w1 := After(cfg, w, calls[..n]);
      NonePanicsBefore(cfg, w, calls);
      CallsBracket(cfg, w, calls[..n]);
      CallBrackets(cfg, w1, calls[n]);
      GrewTogetherTransitive(w, w1, After(cfg, w, calls));
    }
  }

  // ---- the latency hook on top ----

  function Runs(execs: seq<Tagged<Exec>>, id: string): nat {
    if execs == [] then 0
    else Runs(execs[..|execs| - 1], id) + if execs[|execs| - 1].item.nodeID == id then 1 else 0
  }

  lemma {:induction false} SamplesCountRuns(hooks: seq<Meta>, times: seq<int>, execs: seq<Tagged<Exec>>, id: string)
    requires Mirrors(hooks, execs) && |times| == |hooks|
    ensures |Samples(hooks, times, id)| == Runs(execs, id)
  {
    if execs != [] {
      var m := |execs| - 1;
      var h := hooks[..2 * m];
      assert PairOf(hooks[2 * m], hooks[2 * m + 1], execs[m].item);
      forall j | 0 <= j < m ensures PairOf(h[2 * j], h[2 * j + 1], execs[..m][j].item) {
        assert PairOf(hooks[2 * j], hooks[2 * j + 1], execs[j].item);
      }
      SamplesCountRuns(h, times[..2 * m], execs[..m], id);
    }
  }

  lemma MirrorsIsBracketed(hooks: seq<Meta>, execs: seq<Tagged<Exec>>)
    requires Mirrors(hooks, execs)
    ensures Bracketed(hooks)
  {
    forall j | 0 <= j < |hooks| / 2 ensures IsBracket(hooks[2 * j], hooks[2 * j + 1]) {
      assert PairOf(hooks[2 * j], hooks[2 * j + 1], execs[j].item);
    }
  }

  /** The hook holds `n` samples for a node, no start timestamp, and an average within its range. */
  predicate CellMatches(c: Cell, n: nat) {
    && c.started == None && c.count == n
    && (n > 0 ==> c.min.Some? && c.max.Some? && c.min.value <= Avg(c) <= c.max.value)
  }

  /** Attach a fresh latency hook and make any calls on any sessions, none of which panics: for every
      node the hook counts exactly its executions, keeps no start timestamp, and on a monotone clock its average
      lies between its minimum and its maximum. Lost snapshots do not matter. */
  lemma LatencyMatchesExecutions(cfg: Config, w: World, calls: seq<Call>, times: seq<int>, id: string)
    requires NonePanics(cfg, w, calls)
    requires |times| == |After(cfg, w, calls).hooks| - |w.hooks|
    requires forall i, j :: 0 <= i <= j < |times| ==> times[i] <= times[j]
    ensures var w1 := After(cfg, w, calls);
            && |w.hooks| <= |w1.hooks| && |w.execs| <= |w1.execs|
            && CellMatches(Feed(w1.hooks[|w.hooks|..], times, id), Runs(w1.execs[|w.execs|..], id))
  {
    var w1 := After(cfg, w, calls);
    CallsBracket(cfg, w, calls);
    var h, e := w1.hooks[|w.hooks|..], w1.execs[|w.execs|..];
    MirrorsIsBracketed(h, e);
    SamplesCountRuns(h, times, e, id);
    FeedDescribes(h, times, id);
    AvgWithinBounds(h, times, id);
  }
}
