/** CircuitBreaker (engine/resilience.go). Every method holds the mutex for its whole body, so a
    concurrent history is a sequence of events; time.Now() is a parameter. */
module Breaker {
  import opened Core

  datatype Phase = Closed | Open | HalfOpen

  datatype View = View(phase: Phase, failures: nat, successes: nat, openedAt: int)

  datatype Event = Allow(now: int) | Success | Failure(now: int)

  datatype Limits = Limits(threshold: int, openTimeout: int)

  const FRESH := View(Closed, 0, 0, 0)

  predicate Admits(l: Limits, v: View, now: int) {
    v.phase != Open || now - v.openedAt >= l.openTimeout
  }

  predicate Trips(l: Limits, v: View) {
    v.phase == HalfOpen || v.failures + 1 >= l.threshold
  }

  function Step(l: Limits, v: View, e: Event): View {
    match e
    case Allow(now) =>
      if v.phase == Open && now - v.openedAt >= l.openTimeout then v.(phase := HalfOpen) else v
    case Success =>
      View(Closed, 0, v.successes + 1, v.openedAt)
    case Failure(now) =>
      if Trips(l, v) then View(Open, 0, 0, now) else View(v.phase, v.failures + 1, 0, v.openedAt)
  }

  function Run(l: Limits, t: seq<Event>): View {
    if t == [] then FRESH else Step(l, Run(l, t[..|t| - 1]), t[|t| - 1])
  }

  class CircuitBreaker {
    var phase: Phase
    var failures: nat
    var successes: nat
    var openedAt: int
    const limits: Limits

    function Current(): View
      reads this
    {
      View(phase, failures, successes, openedAt)
    }

    constructor (threshold: int, openTimeout: int)
      ensures Current() == FRESH && limits == Limits(threshold, openTimeout)
    {
      phase, failures, successes, openedAt := Closed, 0, 0, 0;
      limits := Limits(threshold, openTimeout);
    }

    method Allow(now: int) returns (ok: bool)
      modifies this
      ensures ok <==> Admits(limits, old(Current()), now)
      ensures Current() == Step(limits, old(Current()), Event.Allow(now))
    {
      match phase {
        case Closed => return true;
        case Open =>
          if now - openedAt >= limits.openTimeout {
            phase := HalfOpen;
            return true;
          }
          return false;
        case HalfOpen => return true;
      }
    }

    method RecordSuccess()
      modifies this
      ensures Current() == Step(limits, old(Current()), Success)
    {
      failures := 0;
      successes := successes + 1;
      phase := Closed;
    }

    method RecordFailure(now: int)
      modifies this
      ensures Current() == Step(limits, old(Current()), Failure(now))
    {
      failures := failures + 1;
      successes := 0;
      if phase == HalfOpen || failures >= limits.threshold {
        phase := Open;
        openedAt := now;
        failures := 0;
      }
    }
  }

  // ---- the breaker read off its history ----

  function Failures(t: seq<Event>): nat {
    if t == [] then 0 else Failures(t[..|t| - 1]) + if t[|t| - 1].Failure? then 1 else 0
  }

  /** `mark` is where counting last restarted (just after a success or a trip); `trip` is the time of
      the last trip unless a success followed it. */
  datatype History = History(mark: nat, trip: Option<int>)

  /** Since the last trip some Allow came late enough to be let through. */
  predicate Probed(l: Limits, t: seq<Event>, h: History) {
    h.trip.Some? && exists j :: h.mark <= j < |t| && t[j].Allow? && t[j].now - h.trip.value >= l.openTimeout
  }

  function Read(l: Limits, t: seq<Event>): (h: History)
    ensures h.mark <= |t|
  {
    if t == [] then History(0, None)
    else
      var before := t[..|t| - 1];
      var h := Read(l, before);
      match t[|t| - 1]
      case Allow(_) => h
      case Success => History(|t|, None)
      case Failure(now) =>
        if Probed(l, before, h) || Failures(before[h.mark..]) + 1 >= l.threshold
        then History(|t|, Some(now)) else h
  }

  lemma ProbedSnoc(l: Limits, t: seq<Event>, e: Event, h: History)
    requires h.mark <= |t|
    ensures Probed(l, t + [e], h)
       <==> Probed(l, t, h) || (h.trip.Some? && e.Allow? && e.now - h.trip.value >= l.openTimeout)
  {
    var u := t + [e];
    if Probed(l, t, h) {
      var j :| h.mark <= j < |t| && t[j].Allow? && t[j].now - h.trip.value >= l.openTimeout;
      assert u[j] == t[j];
    }
    if h.trip.Some? && e.Allow? && e.now - h.trip.value >= l.openTimeout {
      assert u[|t|] == e;
    }
  }

  lemma FailuresSnoc(t: seq<Event>, e: Event, mark: nat)
    requires mark <= |t|
    ensures Failures((t + [e])[mark..]) == Failures(t[mark..]) + if e.Failure? then 1 else 0
  {
    assert (t + [e])[mark..] == t[mark..] + [e];
    assert (t[mark..] + [e])[..|t| - mark] == t[mark..];
  }

  /** The state is a function of the event trace, for every trace and every threshold: Open or HalfOpen
      since the last trip not followed by a success, HalfOpen once that trip was probed, and counting the
      failures since the last success or trip. */
  lemma {:induction false} StateIsItsTrace(l: Limits, t: seq<Event>)
    ensures var h := Read(l, t);
            var v := Run(l, t);
            && v.failures == Failures(t[h.mark..])
            && (v.phase == Closed <==> h.trip == None)
            && (v.phase == HalfOpen <==> Probed(l, t, h))
            && (h.trip.Some? ==> v.openedAt == h.trip.value)
  {
    if t != [] {
      var before, e := t[..|t| - 1], t[|t| - 1];
      assert t == before + [e];
      StateIsItsTrace(l, before);
      var h := Read(l, before);
      ProbedSnoc(l, before, e, h);
      FailuresSnoc(before, e, h.mark);
      assert t[|t|..] == [];
    }
  }

  function Successes(t: seq<Event>): nat {
    if t == [] then 0 else Successes(t[..|t| - 1]) + if t[|t| - 1].Success? then 1 else 0
  }

  /** The success count is that of the events after position k, if the last failure stands just before k. */
  lemma {:induction false} SuccessesSinceFailure(l: Limits, t: seq<Event>, k: nat)
    requires k <= |t| && (k == 0 || t[k - 1].Failure?)
    requires forall j :: k <= j < |t| ==> !t[j].Failure?
    ensures Run(l, t).successes == Successes(t[k..])
  {
    if k < |t| {
      SuccessesSinceFailure(l, t[..|t| - 1], k);
      assert t[k..][..|t[k..]| - 1] == t[..|t| - 1][k..];
    }
  }

  /** The failure count stays below the threshold in every reachable state exactly when the threshold
      is at least 1. */
  lemma {:induction false} FailuresBelowThreshold(l: Limits, t: seq<Event>)
    ensures Run(l, t).failures < l.threshold || l.threshold < 1
    ensures l.threshold < 1 ==> Run(l, []).failures >= l.threshold
  {
    if t != [] {
      FailuresBelowThreshold(l, t[..|t| - 1]);
    }
  }

  /** `t` ends in `n` recorded failures, at least, with no success after the first of them. */
  ghost predicate EndsInFailures(t: seq<Event>, n: int) {
    exists k :: 0 <= k <= |t| && Failures(t[k..]) >= n && (forall j :: k <= j < |t| ==> t[j] != Success)
  }

  lemma {:induction false} NoSuccessSinceMark(l: Limits, t: seq<Event>)
    ensures forall j :: Read(l, t).mark <= j < |t| ==> t[j] != Success
  {
    if t != [] {
      NoSuccessSinceMark(l, t[..|t| - 1]);
    }
  }

  /** A failure that opens a Closed breaker is the threshold-th without a success in between. */
  lemma TripNeedsThresholdFailures(l: Limits, t: seq<Event>, now: int)
    requires Run(l, t).phase == Closed
    requires Run(l, t + [Failure(now)]).phase == Open
    ensures EndsInFailures(t + [Failure(now)], l.threshold)
  {
    var u := t + [Failure(now)];
    assert u[..|u| - 1] == t;
    StateIsItsTrace(l, t);
    NoSuccessSinceMark(l, t);
    var k := Read(l, t).mark;
    assert u[k..][..|u[k..]| - 1] == t[k..];
    assert Failures(u[k..]) >= l.threshold && forall j :: k <= j < |u| ==> u[j] != Success;
  }

  ghost predicate Monotone(t: seq<Event>) {
    forall i, j :: 0 <= i <= j < |t| && !t[i].Success? && !t[j].Success? ==> t[i].now <= t[j].now
  }

  /** On a monotone clock, Allow lets a call through exactly when no trip is outstanding or the last trip
      is at least openTimeout old; in particular nothing passes earlier unless a success was recorded. */
  lemma AllowIffTimedOut(l: Limits, t: seq<Event>, now: int)
    requires Monotone(t + [Allow(now)])
    ensures Admits(l, Run(l, t), now)
       <==> Read(l, t).trip == None || now - Read(l, t).trip.value >= l.openTimeout
  {
    StateIsItsTrace(l, t);
    var h := Read(l, t);
    if Probed(l, t, h) {
      var u := t + [Allow(now)];
      var j :| h.mark <= j < |t| && t[j].Allow? && t[j].now - h.trip.value >= l.openTimeout;
      assert u[j].now <= u[|t|].now;
    }
  }

  /** HalfOpen is no gate: it admits every call, and a success recorded late by a call admitted before
      the trip closes an Open breaker at once. */
  lemma LateSuccessCloses(l: Limits, t: seq<Event>, now: int)
    ensures Run(l, t + [Success]).phase == Closed
    ensures Run(l, t).phase == HalfOpen ==> Admits(l, Run(l, t), now) && Run(l, t + [Allow(now)]) == Run(l, t)
  {
    assert (t + [Success])[..|t|] == t;
    assert (t + [Allow(now)])[..|t|] == t;
  }
}
