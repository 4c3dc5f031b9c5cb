/** The session-wide step budget, in full: what a session executes is what its step count shows plus what it
    executed in calls whose last snapshot was lost. */
module EngineBudget {
  import opened Core
  import opened Store
  import opened Engine
  import opened EngineRuns
  import EngineExits

  // ---- what a call stores ----

  /** The store either stayed as it was or took one snapshot of this session, of step count `k`. */
  ghost predicate Took(c: Contents, c1: Contents, sid: string, k: int) {
    c1 == c || exists st: AgentState :: st.stepCount == k && c1 == Put(c, sid, st)
  }

  /** A returned state has step count `k` and was stored exactly if it can be marshalled. */
  ghost predicate StoredIf(cfg: Config, c: Contents, c1: Contents, sid: string, k: int, x: Exit) {
    x.Returned? ==>
      x.state.stepCount == k && c1 == if cfg.marshals(x.state) then Put(c, sid, x.state) else c
  }

  /** How a turn ends that has come to step count `k` in world `w`. */
  ghost predicate Settles(cfg: Config, w: World, sid: string, k: int, s: Step) {
    && s.world.execs == w.execs
    && (s.Continue? ==> s.world.store == w.store && s.state.stepCount == k)
    && (s.Stop? ==>
          && Took(w.store, s.world.store, sid, k) && StoredIf(cfg, w.store, s.world.store, sid, k, s.exit)
          && (s.world.store == w.store ==> s.world.faults > w.faults))
  }

  lemma EndSettles(cfg: Config, w: World, sid: string, st: AgentState, err: Option<Err>)
    ensures Settles(cfg, w, sid, st.stepCount, End(cfg, w, sid, st, err))
  {
    assert Put(w.store, sid, st).minted != w.store.minted;
  }

  lemma ParkSettles(cfg: Config, w: World, sid: string, st: AgentState, silent: bool)
    ensures Settles(cfg, w, sid, st.stepCount, Park(cfg, w, sid, st, silent))
  {
    var p := st.WithStatus(Paused);
    assert Put(w.store, sid, p).minted != w.store.minted && p.stepCount == st.stepCount;
  }

  lemma ProceedSettles(cfg: Config, w: World, sid: string, id: string, st: AgentState, next: string)
    ensures Settles(cfg, w, sid, st.stepCount, Proceed(cfg, w, sid, id, st, next))
  {
    EndSettles(cfg, w, sid, st.WithStatus(Completed), None);
    EndSettles(cfg, w, sid, st.WithStatus(Failed), Some(ERR_NO_NEXT_NODE));
  }

  lemma RouteSettles(cfg: Config, w: World, sid: string, id: string, st: AgentState, nextNodes: seq<string>)
    ensures Settles(cfg, w, sid, st.stepCount, RouteOn(cfg, w, sid, id, st, nextNodes))
  {
    if nextNodes != [] {
      ProceedSettles(cfg, w, sid, id, st, nextNodes[0]);
    } else {
      var r := ResolveNext(cfg, w, st);
      match r.route
      case Fail(e) => EndSettles(cfg, r.world, sid, st.WithStatus(Failed), Some(e));
      case Ok(next) => ProceedSettles(cfg, r.world, sid, id, st, next);
    }
  }

  lemma DecideSettles(cfg: Config, w: World, sid: string, id: string, st: AgentState, o: Outcome)
    requires !o.Crash? && (o.Replied? ==> o.state.stepCount == st.stepCount + 1)
    ensures Settles(cfg, w, sid, st.stepCount + 1, Decide(cfg, w, sid, id, st, o))
  {
    match o
    case Errored(e) =>
      var st1 := st.(stepCount := st.stepCount + 1);
      if IsCategory(e, HumanNeeded) {
        ParkSettles(cfg, w, sid, st1, AsAgent(e).value.cause == None);
      } else {
        EndSettles(cfg, w, sid, st1.WithStatus(Failed), Some(e));
      }
    case Replied(s, _, nextNodes, interrupt) =>
      if interrupt.Some? {
        ParkSettles(cfg, w, sid, s, false);
      } else {
        RouteSettles(cfg, w, sid, id, s, nextNodes);
      }
  }

  /** A run or a call that started from step count `k`: what it stored, and that storing nothing is a fault. */
  ghost predicate Keeps(cfg: Config, w: World, sid: string, k: int, x: Exit, w1: World) {
    var n := |w1.execs| - |w.execs|;
    && Took(w.store, w1.store, sid, k + n) && StoredIf(cfg, w.store, w1.store, sid, k + n, x)
    && (w1.store == w.store ==> w1.faults > w.faults)
  }

  ghost predicate TurnKeeps(cfg: Config, w: World, sid: string, k: int, s: Step) {
    match s
    case Stop(x, w1) => Keeps(cfg, w, sid, k, x, w1)
    case Continue(_, w1) => w1.store == w.store
  }

  lemma TurnSettles(cfg: Config, w: World, sid: string, st: AgentState)
    ensures TurnKeeps(cfg, w, sid, st.stepCount, Iterate(cfg, w, sid, st))
  {
    if Performs(cfg, st) {
      var o := OutcomeOf(cfg, w, st);
      if !o.Crash? {
        DecideSettles(cfg, Accounted(cfg, w, sid, st), sid, st.lastNodeID, st, o);
      }
    } else if st.status == Failed || st.status == Completed {
      EndSettles(cfg, w, sid, st, if cfg.marshals(st) then None else Some(ERR_MARSHAL));
    } else if st.stepCount >= cfg.maxSteps {
      EndSettles(cfg, w, sid, st.WithStatus(Failed), Some(ERR_MAX_STEPS));
    } else {
      EndSettles(cfg, w, sid, st.WithStatus(Failed), Some(ERR_NO_NEXT_NODE));
    }
  }

  lemma {:induction false} RunKeeps(cfg: Config, w: World, sid: string, st: AgentState)
    ensures var r := RunLoop(cfg, w, sid, st);
            Keeps(cfg, w, sid, st.stepCount, r.exit, r.world)
    decreases StepsLeft(cfg, st)
  {
    TurnSettles(cfg, w, sid, st);
    TurnEffect(cfg, w, sid, st);
    TurnUsesOneStep(cfg, w, sid, st);
    match Iterate(cfg, w, sid, st) {
      case Stop(_, _) =>
      case Continue(st1, w1) => RunKeeps(cfg, w1, sid, st1);
    }
  }

  /** A Start that returns a state stores that state exactly if it can be marshalled, and else leaves the
      session's old snapshot in place, if it has one. */
  lemma StartKeeps(cfg: Config, w: World, sid: string, initial: Option<AgentState>)
    ensures var r := Start(cfg, w, sid, initial);
            && Keeps(cfg, w, sid, Prepared(cfg, initial).stepCount, r.exit, r.world)
            && (r.exit.Returned? ==>
                  Latest(r.world.store, sid)
                  == if cfg.marshals(r.exit.state) then Some(r.exit.state) else Latest(w.store, sid))
  {
    RunKeeps(cfg, w, sid, Prepared(cfg, initial));
  }

  /** A Resume of a paused session stores what it returns exactly if that can be marshalled, and stores
      nothing when it is refused. */
  lemma ResumeKeeps(cfg: Config, w: World, sid: string, injection: map<string, Value>)
    requires Latest(w.store, sid).Some? && Latest(w.store, sid).value.status == Paused
    ensures var r := Resume(cfg, w, sid, injection);
            if r.exit.Refused? then r.world.store == w.store && r.world.execs == w.execs
            else Keeps(cfg, w, sid, Latest(w.store, sid).value.stepCount, r.exit, r.world)
  {
    var saved := Latest(w.store, sid).value;
    var st := Injected(saved, injection);
    var r := ResolveNext(cfg, w, st);
    if r.route.Ok? && r.route.value != "" {
      var st1 := st.(lastNodeID := r.route.value);
      RunKeeps(cfg, r.world, sid, st1);
      RunEffect(cfg, r.world, sid, st1);
    } else if r.route.Ok? && st.lastNodeID in cfg.graph.terminals {
      EndSettles(cfg, r.world, sid, st.WithStatus(Completed), None);
    }
  }

  // ---- what a call loses ----

  /** Did the call add a checkpoint? */
  predicate Stored(w: World, w1: World) {
    w1.store.minted > w.store.minted
  }

  /** Executions of a call that no snapshot records. */
  function LostBy(cfg: Config, w: World, c: Call): nat {
    var w1 := Apply(cfg, w, c).world;
    if Stored(w, w1) || |w1.execs| <= |w.execs| then 0 else |w1.execs| - |w.execs|
  }

  /** Executions of session `sid`, over these calls, that no snapshot records. */
  function Lost(cfg: Config, w: World, calls: seq<Call>, sid: string): nat {
    if calls == [] then 0
    else
      var c := calls[|calls| - 1];
      Lost(cfg, w, calls[..|calls| - 1], sid)
      + if c.sid == sid then LostBy(cfg, After(cfg, w, calls[..|calls| - 1]), c) else 0
  }

  ghost predicate EachLosesNothing(cfg: Config, w: World, calls: seq<Call>, sid: string) {
    forall k :: 0 <= k < |calls| && calls[k].sid == sid ==> LostBy(cfg, After(cfg, w, calls[..k]), calls[k]) == 0
  }

  lemma LostSnoc(cfg: Config, w: World, before: seq<Call>, c: Call, sid: string)
    ensures Lost(cfg, w, before + [c], sid)
         == Lost(cfg, w, before, sid) + if c.sid == sid then LostBy(cfg, After(cfg, w, before), c) else 0
  {
    assert (before + [c])[..|before|] == before;
  }

  lemma {:induction false} LostAtLeast(cfg: Config, w: World, calls: seq<Call>, sid: string, k: nat)
    requires k < |calls| && calls[k].sid == sid
    ensures LostBy(cfg, After(cfg, w, calls[..k]), calls[k]) <= Lost(cfg, w, calls, sid)
  {
    var n := |calls| - 1;
    var before := calls[..n];
    LostSnoc(cfg, w, before, calls[n], sid);
    assert calls == before + [calls[n]];
    if k < n {
      LostAtLeast(cfg, w, before, sid, k);
      assert before[..k] == calls[..k];
    }
  }

  lemma {:induction false} EachMeansAll(cfg: Config, w: World, calls: seq<Call>, sid: string)
    requires EachLosesNothing(cfg, w, calls, sid)
    ensures Lost(cfg, w, calls, sid) == 0
  {
    if calls != [] {
      var n := |calls| - 1;
      var before := calls[..n];
      forall k | 0 <= k < |before| && before[k].sid == sid
        ensures LostBy(cfg, After(cfg, w, before[..k]), before[k]) == 0
      {
        assert before[..k] == calls[..k] && before[k] == calls[k];
      }
      EachMeansAll(cfg, w, before, sid);
      LostSnoc(cfg, w, before, calls[n], sid);
      assert calls == before + [calls[n]];
    }
  }

  /** Nothing is lost exactly when each call on the session loses nothing. */
  lemma NothingLostIff(cfg: Config, w: World, calls: seq<Call>, sid: string)
    ensures Lost(cfg, w, calls, sid) == 0 <==> EachLosesNothing(cfg, w, calls, sid)
  {
    if Lost(cfg, w, calls, sid) == 0 {
      forall k | 0 <= k < |calls| && calls[k].sid == sid
        ensures LostBy(cfg, After(cfg, w, calls[..k]), calls[k]) == 0
      {
        LostAtLeast(cfg, w, calls, sid, k);
      }
    }
    if EachLosesNothing(cfg, w, calls, sid) {
      EachMeansAll(cfg, w, calls, sid);
    }
  }

  /** A Resume that returns a state loses nothing exactly when it executed nothing or its state can be
      marshalled; a Resume that is refused loses nothing. */
  lemma ResumeLosesIff(cfg: Config, w: World, sid: string, injection: map<string, Value>)
    ensures var c := ResumeCall(sid, injection);
            var r := Resume(cfg, w, sid, injection);
            && |r.world.execs| >= |w.execs|
            && (r.exit.Refused? ==> LostBy(cfg, w, c) == 0)
            && (r.exit.Returned? ==>
                  (LostBy(cfg, w, c) == 0 <==> |r.world.execs| == |w.execs| || cfg.marshals(r.exit.state)))
  {
    CallEffect(cfg, w, ResumeCall(sid, injection));
    var l := Latest(w.store, sid);
    if l.Some? && l.value.status == Paused {
      ResumeKeeps(cfg, w, sid, injection);
    }
  }

  // ---- the ledger of a session ----

  /** The session stood at `from` in world `w` and has come to `w1`: its latest step count and the executions
      lost on the way add up to all it executed, and its step count has not passed the limit since. */
  ghost predicate Balanced(cfg: Config, w: World, from: AgentState, w1: World, sid: string, lost: nat) {
    && |w.execs| <= |w1.execs|
    && Latest(w1.store, sid).Some?
    && Latest(w1.store, sid).value.stepCount + lost == from.stepCount + |Executed(w, w1, sid)|
    && from.stepCount <= Latest(w1.store, sid).value.stepCount
    && (Latest(w1.store, sid).value.stepCount <= from.stepCount || Latest(w1.store, sid).value.stepCount <= cfg.maxSteps)
  }

  lemma OtherCallBalances(cfg: Config, w: World, from: AgentState, w1: World, c: Call, sid: string, lost: nat)
    requires Balanced(cfg, w, from, w1, sid, lost) && c.sid != sid
    ensures Balanced(cfg, w, from, Apply(cfg, w1, c).world, sid, lost)
  {
    CallEffect(cfg, w1, c);
    ExecutedGrows(cfg, w, w1, Apply(cfg, w1, c).world, c.sid, sid);
  }

  /** The latest step count after a Resume, by whether it stored anything. */
  lemma ResumeCounts(cfg: Config, w: World, sid: string, injection: map<string, Value>)
    requires Latest(w.store, sid).Some?
    ensures var k := Latest(w.store, sid).value.stepCount;
            var w1 := Resume(cfg, w, sid, injection).world;
            var n := |w1.execs| - |w.execs|;
            && 0 <= n && (n > 0 ==> k + n <= cfg.maxSteps)
            && Latest(w1.store, sid).Some?
            && Latest(w1.store, sid).value.stepCount == k + n - LostBy(cfg, w, ResumeCall(sid, injection))
  {
    var saved := Latest(w.store, sid).value;
    CallEffect(cfg, w, ResumeCall(sid, injection));
    if saved.status == Paused {
      ResumeKeeps(cfg, w, sid, injection);
    }
  }

  lemma ResumeBalances(cfg: Config, w: World, from: AgentState, w1: World, sid: string,
      injection: map<string, Value>, lost: nat)
    requires Balanced(cfg, w, from, w1, sid, lost)
    ensures Balanced(cfg, w, from, Resume(cfg, w1, sid, injection).world, sid,
                     lost + LostBy(cfg, w1, ResumeCall(sid, injection)))
  {
    var c := ResumeCall(sid, injection);
    CallEffect(cfg, w1, c);
    ExecutedGrows(cfg, w, w1, Apply(cfg, w1, c).world, sid, sid);
    ResumeCounts(cfg, w1, sid, injection);
  }

  lemma {:induction false} CallsBalance(cfg: Config, w: World, from: AgentState, w0: World, sid: string, lost: nat,
      calls: seq<Call>)
    requires Balanced(cfg, w, from, w0, sid, lost) && NeverRestarts(calls, sid)
    ensures Balanced(cfg, w, from, After(cfg, w0, calls), sid, lost + Lost(cfg, w0, calls, sid))
  {
    if calls != [] {
      var n := |calls| - 1;
      var w1 := After(cfg, w0, calls[..n]);
      CallsBalance(cfg, w, from, w0, sid, lost, calls[..n]);
      if calls[n].sid == sid {
        ResumeBalances(cfg, w, from, w1, sid, calls[n].injection, lost + Lost(cfg, w0, calls[..n], sid));
      } else {
        OtherCallBalances(cfg, w, from, w1, calls[n], sid, lost + Lost(cfg, w0, calls[..n], sid));
      }
    }
  }

  /** How a Start opens the ledger: at the state it was given if it stored a snapshot, else at the session's
      old one, with everything it executed lost. */
  lemma StartBalances(cfg: Config, w: World, sid: string, initial: Option<AgentState>)
    ensures var st := Prepared(cfg, initial);
            var w0 := Start(cfg, w, sid, initial).world;
            && 0 <= |w0.execs| - |w.execs| <= StepsLeft(cfg, st)
            && |Executed(w, w0, sid)| == |w0.execs| - |w.execs|
            && (Stored(w, w0) ==> Balanced(cfg, w, st, w0, sid, 0))
            && (!Stored(w, w0) ==> Latest(w0.store, sid) == Latest(w.store, sid))
            && (!Stored(w, w0) && Latest(w.store, sid).Some? ==>
                  Balanced(cfg, w, Latest(w.store, sid).value, w0, sid, |w0.execs| - |w.execs|))
  {
    var w0 := Start(cfg, w, sid, initial).world;
    RunEffect(cfg, w, sid, Prepared(cfg, initial));
    RunKeeps(cfg, w, sid, Prepared(cfg, initial));
    ExecutedGrows(cfg, w, w, w0, sid, sid);
  }

  /** A session without any snapshot cannot be resumed. */
  lemma {:induction false} UnknownStaysIdle(cfg: Config, w: World, w0: World, sid: string, calls: seq<Call>)
    requires Latest(w0.store, sid) == None && NeverRestarts(calls, sid) && |w.execs| <= |w0.execs|
    ensures var w1 := After(cfg, w0, calls);
            && Latest(w1.store, sid) == None && |w.execs| <= |w1.execs|
            && Executed(w, w1, sid) == Executed(w, w0, sid) && Lost(cfg, w0, calls, sid) == 0
  {
    if calls != [] {
      var n := |calls| - 1;
      var w1 := After(cfg, w0, calls[..n]);
      UnknownStaysIdle(cfg, w, w0, sid, calls[..n]);
      CallEffect(cfg, w1, calls[n]);
      if calls[n].sid != sid {
        ExecutedGrows(cfg, w, w1, Apply(cfg, w1, calls[n]).world, calls[n].sid, sid);
      }
    }
  }

  // ---- the budget ----

  /** What an older snapshot of the session, left in place by a Start that stored none, still allows. */
  function OldBudget(cfg: Config, w: World, sid: string, w0: World): nat {
    if Stored(w, w0) || Latest(w.store, sid) == None then 0 else StepsLeft(cfg, Latest(w.store, sid).value)
  }

  /** The session-wide budget, for every graph, router, node, store and sequence of calls. Start a session,
      then resume it any number of times, with any calls on other sessions in between. It executes no more
      than maxSteps - StepCount0 nodes plus those no snapshot records (and, if not even Start stored one,
      what an older session of that ID had left). If Start stored a snapshot the account is exact, so the
      session's step count shows all it executed exactly when nothing was lost. */
  lemma SessionBudget(cfg: Config, w: World, sid: string, initial: Option<AgentState>, calls: seq<Call>)
    requires NeverRestarts(calls, sid)
    ensures var st := Prepared(cfg, initial);
            var w0 := Start(cfg, w, sid, initial).world;
            var w1 := After(cfg, w0, calls);
            var lost := Lost(cfg, w0, calls, sid);
            && |w.execs| <= |w1.execs|
            && |Executed(w, w1, sid)| <= StepsLeft(cfg, st) + OldBudget(cfg, w, sid, w0) + lost
            && (Stored(w, w0) ==>
                  && Latest(w1.store, sid).Some?
                  && |Executed(w, w1, sid)| == Latest(w1.store, sid).value.stepCount - st.stepCount + lost
                  && (Latest(w1.store, sid).value.stepCount == st.stepCount + |Executed(w, w1, sid)| <==> lost == 0))
  {
    var w0 := Start(cfg, w, sid, initial).world;
    StartBalances(cfg, w, sid, initial);
    if Stored(w, w0) {
      CallsBalance(cfg, w, Prepared(cfg, initial), w0, sid, 0, calls);
    } else if Latest(w.store, sid).Some? {
      CallsBalance(cfg, w, Latest(w.store, sid).value, w0, sid, |w0.execs| - |w.execs|, calls);
    } else {
      UnknownStaysIdle(cfg, w, w0, sid, calls);
    }
  }

  ghost predicate WithinCap(cfg: Config, w: World, w1: World, sid: string) {
    && |w.execs| <= |w1.execs|
    && forall i :: 0 <= i < |Executed(w, w1, sid)| ==> CallsWithinCap(cfg, Executed(w, w1, sid)[i])
  }

  lemma CallStaysWithinCap(cfg: Config, w: World, w1: World, sid: string, c: Call)
    requires WithinCap(cfg, w, w1, sid)
    ensures WithinCap(cfg, w, Apply(cfg, w1, c).world, sid)
  {
    CallEffect(cfg, w1, c);
    ExecutedGrows(cfg, w, w1, Apply(cfg, w1, c).world, c.sid, sid);
  }

  lemma {:induction false} CallsStayWithinCap(cfg: Config, w: World, w0: World, sid: string, calls: seq<Call>)
    requires WithinCap(cfg, w, w0, sid)
    ensures WithinCap(cfg, w, After(cfg, w0, calls), sid)
  {
    if calls != [] {
      CallsStayWithinCap(cfg, w, w0, sid, calls[..|calls| - 1]);
      CallStaysWithinCap(cfg, w, After(cfg, w0, calls[..|calls| - 1]), sid, calls[|calls| - 1]);
    }
  }

  /** Over a session, each execution makes at most MaxAttempts Process calls. */
  lemma SessionCallsBounded(cfg: Config, w: World, sid: string, initial: Option<AgentState>, calls: seq<Call>)
    requires cfg.maxAttempts >= 0
    ensures var w1 := After(cfg, Start(cfg, w, sid, initial).world, calls);
            && |w.execs| <= |w1.execs|
            && TotalCalls(Executed(w, w1, sid)) <= |Executed(w, w1, sid)| * cfg.maxAttempts
  {
    assert w.execs[|w.execs|..] == [];
    CallStaysWithinCap(cfg, w, w, sid, StartCall(sid, initial));
    CallsStayWithinCap(cfg, w, Start(cfg, w, sid, initial).world, sid, calls);
    TotalCallsBounded(cfg, Executed(w, After(cfg, Start(cfg, w, sid, initial).world, calls), sid));
  }

  // ---- without faults ----

  lemma {:induction false} FaultFreeLosesNothing(cfg: Config, w: World, calls: seq<Call>, sid: string)
    requires NeverRestarts(calls, sid) && After(cfg, w, calls).faults == w.faults
    ensures Lost(cfg, w, calls, sid) == 0
  {
    if calls != [] {
      var n := |calls| - 1;
      var w1 := After(cfg, w, calls[..n]);
      FaultsGrow(cfg, w, calls[..n]);
      CallEffect(cfg, w1, calls[n]);
      FaultFreeLosesNothing(cfg, w, calls[..n], sid);
      if calls[n].sid == sid {
        FaultFreeResumeLosesNothing(cfg, w1, sid, calls[n].injection);
      }
    }
  }

  lemma FaultFreeResumeLosesNothing(cfg: Config, w: World, sid: string, injection: map<string, Value>)
    requires Resume(cfg, w, sid, injection).world.faults == w.faults
    ensures LostBy(cfg, w, ResumeCall(sid, injection)) == 0
  {
    var l := Latest(w.store, sid);
    if l.Some? && l.value.status == Paused {
      ResumeKeeps(cfg, w, sid, injection);
    }
  }

  /** With tame nodes, at least one attempt per node and a store that takes every snapshot, a session executes
      at most maxSteps - StepCount0 nodes, and makes at most MaxAttempts times as many Process calls. */
  lemma FaultFreeBudget(cfg: Config, w: World, sid: string, initial: Option<AgentState>, calls: seq<Call>)
    requires EngineExits.FaultFree(cfg) && NeverRestarts(calls, sid)
    ensures var w1 := After(cfg, Start(cfg, w, sid, initial).world, calls);
            && |w.execs| <= |w1.execs|
            && |Executed(w, w1, sid)| <= StepsLeft(cfg, Prepared(cfg, initial))
            && TotalCalls(Executed(w, w1, sid)) <= StepsLeft(cfg, Prepared(cfg, initial)) * cfg.maxAttempts
  {
    var w0 := Start(cfg, w, sid, initial).world;
    EngineExits.NoFaults(cfg, w0, calls);
    FaultFreeLosesNothing(cfg, w0, calls, sid);
    EngineExits.RunFaultFree(cfg, w, sid, Prepared(cfg, initial));
    RunKeeps(cfg, w, sid, Prepared(cfg, initial));
    SessionBudget(cfg, w, sid, initial, calls);
    SessionCallsBounded(cfg, w, sid, initial, calls);
    var ran := Executed(w, After(cfg, w0, calls), sid);
    ScaleMonotone(|ran|, StepsLeft(cfg, Prepared(cfg, initial)), cfg.maxAttempts);
  }
}
