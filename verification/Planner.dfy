/** The ReAct planner (planner/react.go). The plan is an object the state only points to, so Revise rewrites
    it in place. */
module Planner {

  datatype StepStatus = Pending | Running | Completed | Failed | Skipped

  datatype PlanStep = PlanStep(nodeID: string, status: StepStatus, observation: string)

  const THINK := "LLMNode"
  const TOOL := "ToolExecutorNode"
  const TERMINAL := "__terminal__"

  /** What the state tells Revise: the observation, and whether a tool call is signalled. */
  datatype Signal = Signal(observation: string, toolCall: bool)

  // ---- one revision, on the list of steps ----

  /** The first step of this status, or the number of steps. */
  function First(steps: seq<PlanStep>, s: StepStatus): (r: nat)
    ensures r <= |steps|
  {
    if steps == [] || steps[0].status == s then 0 else 1 + First(steps[1..], s)
  }

  lemma {:induction false} FirstAt(steps: seq<PlanStep>, s: StepStatus, i: nat)
    requires i <= |steps|
    requires forall k :: 0 <= k < i ==> steps[k].status != s
    requires i < |steps| ==> steps[i].status == s
    ensures First(steps, s) == i
  {
    if i > 0 {
      FirstAt(steps[1..], s, i - 1);
    }
  }

  function Observed(steps: seq<PlanStep>, observation: string): seq<PlanStep> {
    var i := First(steps, Running);
    if i == |steps| then steps else steps[i := steps[i].(status := Completed, observation := observation)]
  }

  function Launched(steps: seq<PlanStep>): seq<PlanStep> {
    var i := First(steps, Pending);
    if i == |steps| then steps else steps[i := steps[i].(status := Running)]
  }

  function CompletedIn(steps: seq<PlanStep>): nat {
    if steps == [] then 0
    else CompletedIn(steps[..|steps| - 1]) + if steps[|steps| - 1].status == Completed then 1 else 0
  }

  function Choice(s: Signal): string {
    if s.toolCall then TOOL else if s.observation != "" then THINK else TERMINAL
  }

  datatype Revision = Revision(steps: seq<PlanStep>, next: string)

  function Revised(maxRounds: nat, steps: seq<PlanStep>, s: Signal): (r: Revision)
    ensures |r.steps| == |steps| + 1
  {
    var done := Observed(steps, s.observation);
    if CompletedIn(done) >= maxRounds then Revision(done + [PlanStep(TERMINAL, Pending, "")], TERMINAL)
    else Revision(Launched(done + [PlanStep(Choice(s), Pending, "")]), Choice(s))
  }

  // ---- the objects ----

  class Plan {
    var goal: string
    var steps: seq<PlanStep>

    constructor (goal: string)
      ensures this.goal == goal && steps == [PlanStep(THINK, Pending, "")]
    {
      this.goal := goal;
      steps := [PlanStep(THINK, Pending, "")];
    }

    /** The first step that is Pending or Running. */
    method CurrentStep() returns (i: int)
      ensures i == -1 ==> forall k :: 0 <= k < |steps| ==> steps[k].status != Pending && steps[k].status != Running
      ensures i != -1 ==> 0 <= i < |steps| && (steps[i].status == Pending || steps[i].status == Running)
                          && forall k :: 0 <= k < i ==> steps[k].status != Pending && steps[k].status != Running
    {
      i := 0;
      while i < |steps|
        invariant 0 <= i <= |steps|
        invariant forall k :: 0 <= k < i ==> steps[k].status != Pending && steps[k].status != Running
      {
        if steps[i].status == Pending || steps[i].status == Running {
          return;
        }
        i := i + 1;
      }
      return -1;
    }

    method Append(nodeID: string)
      modifies this`steps
      ensures steps == old(steps) + [PlanStep(nodeID, Pending, "")]
    {
      steps := steps + [PlanStep(nodeID, Pending, "")];
    }
  }

  class ReActPlanner {
    const maxRounds: nat

    constructor (maxRounds: int)
      ensures this.maxRounds == if maxRounds <= 0 then 20 else maxRounds
    {
      this.maxRounds := if maxRounds <= 0 then 20 else maxRounds;
    }

    /** Files the observation on the first running step, which is thereby completed. */
    method Observe(plan: Plan, observation: string)
      modifies plan`steps
      ensures plan.steps == Observed(old(plan.steps), observation)
    {
      for i := 0 to |plan.steps|
        invariant plan.steps == old(plan.steps)
        invariant forall k :: 0 <= k < i ==> plan.steps[k].status != Running
      {
        if plan.steps[i].status == Running {
          FirstAt(plan.steps, Running, i);
          plan.steps := plan.steps[i := plan.steps[i].(status := Completed, observation := observation)];
          return;
        }
      }
      FirstAt(plan.steps, Running, |plan.steps|);
    }

    method CountCompleted(plan: Plan) returns (n: nat)
      ensures n == CompletedIn(plan.steps)
    {
      n := 0;
      for k := 0 to |plan.steps|
        invariant n == CompletedIn(plan.steps[..k])
      {
        assert plan.steps[..k + 1][..k] == plan.steps[..k];
        if plan.steps[k].status == Completed {
          n := n + 1;
        }
      }
      assert plan.steps[..|plan.steps|] == plan.steps;
    }

    method Launch(plan: Plan)
      modifies plan`steps
      ensures plan.steps == Launched(old(plan.steps))
    {
      for i := 0 to |plan.steps|
        invariant plan.steps == old(plan.steps)
        invariant forall k :: 0 <= k < i ==> plan.steps[k].status != Pending
      {
        if plan.steps[i].status == Pending {
          FirstAt(plan.steps, Pending, i);
          plan.steps := plan.steps[i := plan.steps[i].(status := Running)];
          return;
        }
      }
      FirstAt(plan.steps, Pending, |plan.steps|);
    }

    /** Fails on a state without a plan; otherwise revises the plan in place. */
    method Revise(plan: Plan?, s: Signal) returns (ok: bool, next: string)
      modifies if plan == null then {} else {plan}
      ensures ok <==> plan != null
      ensures plan != null ==> Revision(plan.steps, next) == Revised(maxRounds, old(plan.steps), s) && plan.goal == old(plan.goal)
    {
      if plan == null {
        return false, "";
      }
      Observe(plan, s.observation);
      var completedTotal := CountCompleted(plan);
      if completedTotal >= maxRounds {
        plan.Append(TERMINAL);
        return true, TERMINAL;
      }
      if s.toolCall {
        next := TOOL;
      } else if s.observation != "" {
        next := THINK;
      } else {
        next := TERMINAL;
      }
      plan.Append(next);
      Launch(plan);
      ok := true;
    }
  }

  // ---- every sequence of revisions ----

  /** The plan after Plan and then one Revise per signal. */
  function Steps(maxRounds: nat, signals: seq<Signal>): (r: seq<PlanStep>)
    ensures |r| == |signals| + 1
  {
    if signals == [] then [PlanStep(THINK, Pending, "")]
    else Revised(maxRounds, Steps(maxRounds, signals[..|signals| - 1]), signals[|signals| - 1]).steps
  }

  /** What the n-th call (counting Plan as call 0) answered. */
  function Answer(maxRounds: nat, signals: seq<Signal>, n: nat): string
    requires n <= |signals|
  {
    if n == 0 then THINK else Revised(maxRounds, Steps(maxRounds, signals[..n - 1]), signals[n - 1]).next
  }

  /** Completed steps after n calls of Revise. */
  function Rounds(maxRounds: nat, n: nat): nat {
    if n == 0 then 0 else if n <= maxRounds then n - 1 else maxRounds
  }

  /** `c` completed steps, then a running one if `r`, then pending ones. */
  ghost predicate Shape(steps: seq<PlanStep>, c: nat, r: bool) {
    && c + (if r then 1 else 0) <= |steps|
    && (forall i :: 0 <= i < c ==> steps[i].status == Completed)
    && (r ==> steps[c].status == Running)
    && (forall i :: c + (if r then 1 else 0) <= i < |steps| ==> steps[i].status == Pending)
  }

  lemma {:induction false} ShapeCounts(steps: seq<PlanStep>, c: nat, r: bool)
    requires Shape(steps, c, r)
    ensures CompletedIn(steps) == c
  {
    if steps != [] {
      var n := |steps| - 1;
      if c == |steps| {
        ShapeCounts(steps[..n], c - 1, false);
      } else {
        ShapeCounts(steps[..n], c, r && c < n);
      }
    }
  }

  lemma ShapeFirsts(steps: seq<PlanStep>, c: nat, r: bool)
    requires Shape(steps, c, r)
    ensures First(steps, Running) == if r then c else |steps|
    ensures First(steps, Pending) == c + if r then 1 else 0
  {
    FirstAt(steps, Running, if r then c else |steps|);
    FirstAt(steps, Pending, c + if r then 1 else 0);
  }

  lemma ObservedShape(steps: seq<PlanStep>, c: nat, r: bool, observation: string)
    requires Shape(steps, c, r)
    ensures Shape(Observed(steps, observation), c + (if r then 1 else 0), false)
    ensures Observed(steps, observation) == if r then steps[c := steps[c].(status := Completed, observation := observation)] else steps
  {
    ShapeFirsts(steps, c, r);
  }

  lemma LaunchedShape(steps: seq<PlanStep>, c: nat, nodeID: string)
    requires Shape(steps, c, false)
    ensures var appended := steps + [PlanStep(nodeID, Pending, "")];
            && Shape(appended, c, false)
            && Launched(appended) == appended[c := appended[c].(status := Running)]
            && Shape(Launched(appended), c, true)
  {
    ShapeFirsts(steps + [PlanStep(nodeID, Pending, "")], c, false);
  }

  /** What one revision does to a plan of shape (c, r): a running step, if any, is completed with the
      observation; then either the cap is reached and Terminal is appended, or the choice is appended and the
      first pending step is launched. Nothing else changes. */
  ghost predicate Follows(maxRounds: nat, steps: seq<PlanStep>, rev: Revision, s: Signal, c: nat, r: bool) {
    var c1 := c + if r then 1 else 0;
    && c1 <= |steps| && |rev.steps| == |steps| + 1
    && Shape(rev.steps, c1, c1 < maxRounds)
    && rev.next == (if c1 < maxRounds then Choice(s) else TERMINAL)
    && (forall m :: 0 <= m < |steps| ==> rev.steps[m].nodeID == steps[m].nodeID)
    && rev.steps[|steps|].nodeID == rev.next
    && (forall i :: 0 <= i < c ==> rev.steps[i].observation == steps[i].observation)
    && (r ==> rev.steps[c].observation == s.observation)
  }

  lemma RevisionStep(maxRounds: nat, steps: seq<PlanStep>, s: Signal, c: nat, r: bool)
    requires Shape(steps, c, r)
    ensures Follows(maxRounds, steps, Revised(maxRounds, steps, s), s, c, r)
  {
    var c1 := c + if r then 1 else 0;
    ObservedShape(steps, c, r, s.observation);
    var done := Observed(steps, s.observation);
    ShapeCounts(done, c1, false);
    LaunchedShape(done, c1, Choice(s));
  }

  /** The planner's statuses in closed form: after n calls the first Rounds(n) steps are Completed, one is
      Running exactly while the round guard has not fired, and the rest are Pending. */
  lemma {:induction false} PlanInClosedForm(maxRounds: nat, signals: seq<Signal>)
    requires maxRounds >= 1
    ensures Shape(Steps(maxRounds, signals), Rounds(maxRounds, |signals|), 1 <= |signals| <= maxRounds)
  {
    if signals != [] {
      var n := |signals| - 1;
      PlanInClosedForm(maxRounds, signals[..n]);
      RevisionStep(maxRounds, Steps(maxRounds, signals[..n]), signals[n], Rounds(maxRounds, n), 1 <= n <= maxRounds);
    }
  }

  /** The round cap: call maxRounds+1 and every later call answers Terminal, whatever is signalled; before
      that a tool call is answered by the tool node, any other observation by the thinking node, and neither by
      Terminal. */
  lemma RoundCap(maxRounds: nat, signals: seq<Signal>, n: nat)
    requires maxRounds >= 1 && 1 <= n <= |signals|
    ensures n > maxRounds ==> Answer(maxRounds, signals, n) == "__terminal__"
    ensures n <= maxRounds ==>
              var s, next := signals[n - 1], Answer(maxRounds, signals, n);
              && (s.toolCall ==> next == "ToolExecutorNode")
              && (!s.toolCall && s.observation != "" ==> next == "LLMNode")
              && (!s.toolCall && s.observation == "" ==> next == "__terminal__")
  {
    var before := signals[..n - 1];
    PlanInClosedForm(maxRounds, before);
    RevisionStep(maxRounds, Steps(maxRounds, before), signals[n - 1], Rounds(maxRounds, n - 1), 1 <= n - 1 <= maxRounds);
  }

  lemma LastFollows(maxRounds: nat, signals: seq<Signal>)
    requires maxRounds >= 1 && signals != []
    ensures var n := |signals| - 1;
            Follows(maxRounds, Steps(maxRounds, signals[..n]), Revision(Steps(maxRounds, signals), Answer(maxRounds, signals, n + 1)),
                    signals[n], Rounds(maxRounds, n), 1 <= n <= maxRounds)
  {
    var n := |signals| - 1;
    PlanInClosedForm(maxRounds, signals[..n]);
    RevisionStep(maxRounds, Steps(maxRounds, signals[..n]), signals[n], Rounds(maxRounds, n), 1 <= n <= maxRounds);
  }

  /** A revision renames no step, and appends the one it answers. */
  lemma RevisionKeepsNodes(maxRounds: nat, steps: seq<PlanStep>, s: Signal, m: nat)
    requires m <= |steps|
    ensures var rev := Revised(maxRounds, steps, s);
            rev.steps[m].nodeID == if m < |steps| then steps[m].nodeID else rev.next
  {
  }

  lemma LastObservation(maxRounds: nat, signals: seq<Signal>, i: nat)
    requires maxRounds >= 1 && signals != [] && i < Rounds(maxRounds, |signals|)
    ensures var n := |signals| - 1;
            if i < Rounds(maxRounds, n)
            then Steps(maxRounds, signals)[i].observation == Steps(maxRounds, signals[..n])[i].observation
            else i == n - 1 && Steps(maxRounds, signals)[i].observation == signals[n].observation
  {
    LastFollows(maxRounds, signals);
  }

  /** Step m of the plan is what call m answered. */
  lemma {:induction false} StepsRecordAnswers(maxRounds: nat, signals: seq<Signal>, m: nat)
    requires m <= |signals|
    ensures Steps(maxRounds, signals)[m].nodeID == Answer(maxRounds, signals, m)
  {
    if signals != [] {
      var n := |signals| - 1;
      RevisionKeepsNodes(maxRounds, Steps(maxRounds, signals[..n]), signals[n], m);
      if m < |signals| {
        StepsRecordAnswers(maxRounds, signals[..n], m);
        AnswerStays(maxRounds, signals, m);
      }
    }
  }

  lemma AnswerStays(maxRounds: nat, signals: seq<Signal>, m: nat)
    requires m < |signals|
    ensures Answer(maxRounds, signals[..|signals| - 1], m) == Answer(maxRounds, signals, m)
  {
    if m > 0 {
      assert signals[..|signals| - 1][..m - 1] == signals[..m - 1];
    }
  }

  /** The observation passed with signals[i+1] is filed on step i, and stays there. */
  lemma {:induction false} StepsRecordObservations(maxRounds: nat, signals: seq<Signal>, i: nat)
    requires maxRounds >= 1 && i < Rounds(maxRounds, |signals|)
    ensures i + 1 < |signals|
    ensures Steps(maxRounds, signals)[i].observation == signals[i + 1].observation
  {
    LastObservation(maxRounds, signals, i);
    if i < Rounds(maxRounds, |signals| - 1) {
      StepsRecordObservations(maxRounds, signals[..|signals| - 1], i);
    }
  }

  /** Revise does not run the step it just answered: while rounds last, the step marked Running after call n
      is the one answered by the call before. */
  lemma RunningStepLagsBehind(maxRounds: nat, signals: seq<Signal>)
    requires maxRounds >= 1 && 1 <= |signals| <= maxRounds
    ensures var n := |signals|;
            && Steps(maxRounds, signals)[n - 1].status == Running
            && Steps(maxRounds, signals)[n - 1].nodeID == Answer(maxRounds, signals, n - 1)
  {
    PlanInClosedForm(maxRounds, signals);
    StepsRecordAnswers(maxRounds, signals, |signals| - 1);
  }
}
