/** RetryPolicy (engine/resilience.go). The guarded callable is a tape: `fn(i)` is what its i-th
    attempt produces, `done(i)` says that the context is cancelled while waiting after attempt i, and
    `rand(i)` is the jitter draw. Durations are reals. */
module Retry {
  import opened Core

  datatype Attempt<+T> = Ok(value: T) | Fail(err: Err)

  /** `NoAttempt` is the source's nil result together with a nil error. */
  datatype Verdict<+T> = NoAttempt | Success(value: T) | Failure(err: Err)

  datatype Ran<+T> = Ran(verdict: Verdict<T>, calls: nat)

  datatype Policy = Policy(maxAttempts: int, baseDelay: real, maxDelay: real, multiplier: real)

  predicate Retriable<T>(a: Attempt<T>) {
    a.Fail? && IsCategory(a.err, Category.Retriable)
  }

  /** What exhaustion turns a retriable failure into: fatal, same node, same cause. */
  function Escalated(e: Err): (r: Err)
    requires IsCategory(e, Category.Retriable)
  {
    var a := AsAgent(e).value;
    Agent(Fatal, a.nodeID, a.cause)
  }

  /** The outcome of the attempts from number `i` on. */
  function From<T>(max: int, fn: nat -> Attempt<T>, done: nat -> bool, i: nat): (r: Ran<T>)
    decreases max - i
  {
    if i >= max then Ran(NoAttempt, i)
    else
      match fn(i)
      case Ok(v) => Ran(Success(v), i + 1)
      case Fail(e) =>
        if !IsCategory(e, Category.Retriable) then Ran(Failure(e), i + 1)
        else if i == max - 1 then Ran(Failure(Escalated(e)), i + 1)
        else if done(i) then Ran(Failure(ERR_CANCELED), i + 1)
        else From(max, fn, done, i + 1)
  }

  function Run<T>(max: int, fn: nat -> Attempt<T>, done: nat -> bool): Ran<T> {
    From(max, fn, done, 0)
  }

  // ---- back-off ----

  function Min(a: real, b: real): real { if a < b then a else b }

  function Times(a: real, b: real): real { a * b }

  function Pow(m: real, i: nat): real {
    if i == 0 then 1.0 else Times(Pow(m, i - 1), m)
  }

  /** A delay scaled by a factor and cut off at the cap. */
  function Capped(p: Policy, delay: real, factor: real): real {
    Min(Times(delay, factor), p.maxDelay)
  }

  /** The un-jittered delay before attempt i+1. */
  function BaseDelay(p: Policy, i: nat): real {
    if i == 0 then p.baseDelay else Capped(p, BaseDelay(p, i - 1), p.multiplier)
  }

  /** The timer armed when the un-jittered delay is `delay` and the jitter draw is r. */
  function Sleep(p: Policy, delay: real, r: real): real {
    Capped(p, delay, 0.8 + 0.4 * r)
  }

  /** The waits between the first n+1 attempts. */
  function Sleeps(p: Policy, rand: nat -> real, n: nat): (s: seq<real>)
    ensures |s| == n
  {
    if n == 0 then [] else Sleeps(p, rand, n - 1) + [Sleep(p, BaseDelay(p, n - 1), rand(n - 1))]
  }

  function Sum(s: seq<real>): real {
    if s == [] then 0.0 else Sum(s[..|s| - 1]) + s[|s| - 1]
  }

  /** The retry loop. Besides the verdict it reports how often it called `fn` and the waits it sat through. */
  method Execute<T>(p: Policy, fn: nat -> Attempt<T>, done: nat -> bool, rand: nat -> real)
    returns (verdict: Verdict<T>, calls: nat, sleeps: seq<real>)
    ensures Ran(verdict, calls) == Run(p.maxAttempts, fn, done)
    ensures sleeps == Sleeps(p, rand, if calls == 0 then 0 else calls - 1)
  {
    var delay := p.baseDelay;
    var attempt := 0;
    sleeps := [];
    while attempt < p.maxAttempts
      invariant delay == BaseDelay(p, attempt)
      invariant From(p.maxAttempts, fn, done, attempt) == Run(p.maxAttempts, fn, done)
      invariant attempt == 0 || attempt < p.maxAttempts
      invariant sleeps == Sleeps(p, rand, attempt)
    {
      var a := fn(attempt);
      if a.Ok? {
        return Success(a.value), attempt + 1, sleeps;
      }
      if !IsCategory(a.err, Category.Retriable) {
        return Failure(a.err), attempt + 1, sleeps;
      }
      if attempt == p.maxAttempts - 1 {
        return Failure(Escalated(a.err)), attempt + 1, sleeps;
      }
      var jitter := Times(delay, 0.8 + 0.4 * rand(attempt));
      if jitter > p.maxDelay {
        jitter := p.maxDelay;
      }
      assert jitter == Sleep(p, delay, rand(attempt));
      if done(attempt) {
        return Failure(ERR_CANCELED), attempt + 1, sleeps;
      }
      sleeps := sleeps + [jitter];
      ghost var before := delay;
      delay := Times(delay, p.multiplier);
      if delay > p.maxDelay {
        delay := p.maxDelay;
      }
      assert delay == Capped(p, before, p.multiplier);
      attempt := attempt + 1;
    }
    return NoAttempt, attempt, sleeps;
  }

  // ---- what the loop means ----

  /** `r` is the outcome of a retried call: every attempt but the last failed retriably and was waited
      out, and the last one alone decides the verdict. */
  ghost predicate Explains<T(!new)>(max: int, fn: nat -> Attempt<T>, done: nat -> bool, r: Ran<T>) {
    && 1 <= r.calls <= max
    && (forall i: nat :: i < r.calls - 1 ==> Retriable(fn(i)) && !done(i))
    && var last := fn(r.calls - 1);
       && (last.Ok? ==> r.verdict == Success(last.value))
       && (last.Fail? && !Retriable(last) ==> r.verdict == Failure(last.err))
       && (Retriable(last) && r.calls == max ==>
             var a := AsAgent(last.err).value;
             r.verdict == Failure(Agent(Fatal, a.nodeID, a.cause)))
       && (Retriable(last) && r.calls < max ==> done(r.calls - 1) && r.verdict == Failure(ERR_CANCELED))
  }

  lemma {:induction false} FromExplains<T(!new)>(max: int, fn: nat -> Attempt<T>, done: nat -> bool, i: nat)
    requires i < max
    requires forall j: nat :: j < i ==> Retriable(fn(j)) && !done(j)
    ensures Explains(max, fn, done, From(max, fn, done, i))
    decreases max - i
  {
    if Retriable(fn(i)) && i < max - 1 && !done(i) {
      FromExplains(max, fn, done, i + 1);
    }
  }

  /** The loop computes the one outcome that explains the tape; without a single permitted attempt
      (MaxAttempts below 1) the callable is never run and there is no result. */
  lemma {:induction false} RunIsTheExplanation<T(!new)>(max: int, fn: nat -> Attempt<T>, done: nat -> bool, r: Ran<T>)
    ensures max >= 1 ==> (Explains(max, fn, done, r) <==> r == Run(max, fn, done))
    ensures max < 1 ==> Run(max, fn, done) == Ran(NoAttempt, 0)
  {
    if max >= 1 {
      FromExplains(max, fn, done, 0);
    }
  }

  /** Without cancellation the callable runs exactly min(MaxAttempts, first non-retriable position)
      times, and running out of attempts ends in a fatal error of the last failure's node and cause. */
  lemma CallCount<T(!new)>(max: int, fn: nat -> Attempt<T>, done: nat -> bool, first: nat)
    requires max >= 1
    requires forall i: nat :: !done(i)
    requires forall i: nat :: i < first ==> Retriable(fn(i))
    requires !Retriable(fn(first))
    ensures Run(max, fn, done).calls == if first + 1 < max then first + 1 else max
    ensures first >= max ==>
              && Retriable(fn((max - 1) as nat))
              && var last := AsAgent(fn((max - 1) as nat).err).value;
                 Run(max, fn, done).verdict == Failure(Agent(Fatal, last.nodeID, last.cause))
  {
    RunIsTheExplanation(max, fn, done, Run(max, fn, done));
  }

  lemma MulMonotone(a: real, b: real, c: real)
    requires a <= b && c >= 0.0
    ensures Times(a, c) <= Times(b, c)
    ensures Times(c, a) <= Times(c, b)
  {
  }

  lemma {:induction false} PowBounds(m: real, i: nat)
    requires m >= 0.0
    ensures Pow(m, i) >= 0.0
    ensures m <= 1.0 ==> Pow(m, i) <= 1.0
  {
    if i > 0 {
      PowBounds(m, i - 1);
      PowStep(Pow(m, i - 1), m);
    }
  }

  lemma PowStep(q: real, m: real)
    requires m >= 0.0 && q >= 0.0
    ensures Times(q, m) >= 0.0
    ensures m <= 1.0 && q <= 1.0 ==> Times(q, m) <= 1.0
  {
    MulMonotone(0.0, m, q);
    if m <= 1.0 {
      MulMonotone(m, 1.0, q);
    }
  }

  lemma {:induction false} ClosedFormAt(p: Policy, i: nat)
    requires p.multiplier >= 0.0 && 0.0 <= p.baseDelay <= p.maxDelay
    ensures BaseDelay(p, i) == Capped(p, p.baseDelay, Pow(p.multiplier, i))
  {
    if i == 0 {
      TimesOne(p.baseDelay);
    } else {
      ClosedFormAt(p, i - 1);
      PowBounds(p.multiplier, i - 1);
      ClosedFormStep(p, Pow(p.multiplier, i - 1));
    }
  }

  lemma TimesOne(b: real)
    ensures Times(b, 1.0) == b
  {
  }

  lemma TimesAssociative(a: real, b: real, c: real)
    ensures Times(Times(a, b), c) == Times(a, Times(b, c))
  {
  }

  lemma ClosedFormStep(p: Policy, q: real)
    requires p.multiplier >= 0.0 && 0.0 <= p.baseDelay <= p.maxDelay
    requires q >= 0.0 && (p.multiplier <= 1.0 ==> q <= 1.0)
    ensures Capped(p, Capped(p, p.baseDelay, q), p.multiplier) == Capped(p, p.baseDelay, Times(q, p.multiplier))
  {
    TimesAssociative(p.baseDelay, q, p.multiplier);
    var x := Times(p.baseDelay, q);
    if x > p.maxDelay {
      if p.multiplier >= 1.0 {
        MulMonotone(1.0, p.multiplier, p.maxDelay);
        TimesOne(p.maxDelay);
        MulMonotone(1.0, p.multiplier, x);
        TimesOne(x);
      } else {
        MulMonotone(q, 1.0, p.baseDelay);
        TimesOne(p.baseDelay);
        assert false;
      }
    }
  }

  /** The i-th delay is the power of the multiplier, cut off at the cap. */
  predicate IsClosedForm(p: Policy, i: nat, delay: real) {
    var d := p.baseDelay * Pow(p.multiplier, i);
    delay == if d > p.maxDelay then p.maxDelay else d
  }

  /** Every base delay is min(Base * Multiplier^i, MaxDelay) exactly when the base does not exceed the
      cap: the first delay is the one the source never caps. */
  lemma BackoffClosedForm(p: Policy)
    requires p.multiplier >= 0.0 && p.baseDelay >= 0.0
    ensures (forall i: nat :: IsClosedForm(p, i, BaseDelay(p, i))) <==> p.baseDelay <= p.maxDelay
  {
    if p.baseDelay <= p.maxDelay {
      forall i: nat ensures IsClosedForm(p, i, BaseDelay(p, i)) {
        ClosedFormAt(p, i);
      }
    } else {
      TimesOne(p.baseDelay);
      assert !IsClosedForm(p, 0, BaseDelay(p, 0));
    }
  }

  /** The i-th wait of a call is its base delay scaled by 0.8 to 1.2, as the i-th draw says, cut off at the
      cap. */
  lemma {:induction false} SleepsAt(p: Policy, rand: nat -> real, n: nat, i: nat)
    requires i < n
    ensures var d := BaseDelay(p, i) * (0.8 + 0.4 * rand(i));
            Sleeps(p, rand, n)[i] == if d > p.maxDelay then p.maxDelay else d
  {
    if i < n - 1 {
      SleepsAt(p, rand, n - 1, i);
    }
  }

  lemma {:induction false} SumBounded(p: Policy, rand: nat -> real, n: nat)
    ensures Sum(Sleeps(p, rand, n)) <= Times(n as real, p.maxDelay)
  {
    if n > 0 {
      SumBounded(p, rand, n - 1);
      var s := Sleeps(p, rand, n);
      assert s[..n - 1] == Sleeps(p, rand, n - 1);
      TimesStep(n - 1, p.maxDelay);
    }
  }

  lemma TimesStep(n: nat, d: real)
    ensures Times((n + 1) as real, d) == Times(n as real, d) + d
  {
  }

  lemma {:induction false} CallsBounded<T>(max: int, fn: nat -> Attempt<T>, done: nat -> bool, i: nat)
    ensures i < max ==> i < From(max, fn, done, i).calls <= max
    ensures i >= max ==> From(max, fn, done, i).calls == i
    decreases max - i
  {
    if i < max && Retriable(fn(i)) && i < max - 1 && !done(i) {
      CallsBounded(max, fn, done, i + 1);
    }
  }

  /** Whatever the tape and the jitter, a policy with k permitted attempts sleeps at most
      (k-1) * MaxDelay in all. */
  lemma TotalSleepBounded<T>(p: Policy, fn: nat -> Attempt<T>, done: nat -> bool, rand: nat -> real)
    requires p.maxAttempts >= 1 && p.maxDelay >= 0.0
    ensures Run(p.maxAttempts, fn, done).calls >= 1
    ensures Sum(Sleeps(p, rand, Run(p.maxAttempts, fn, done).calls - 1))
            <= Times((p.maxAttempts - 1) as real, p.maxDelay)
  {
    CallsBounded(p.maxAttempts, fn, done, 0);
    var n := Run(p.maxAttempts, fn, done).calls - 1;
    SumBounded(p, rand, n);
    MulMonotone(n as real, (p.maxAttempts - 1) as real, p.maxDelay);
  }

  /** A draw in [0, 1) keeps every wait within 20 % of its base delay, and never above the cap; the lowest
      draw reaches the lower end and the middle one waits the base delay itself. */
  lemma JitterWindow(p: Policy, i: nat, r: real)
    requires p.multiplier >= 0.0 && 0.0 <= p.baseDelay <= p.maxDelay
    requires 0.0 <= r < 1.0
    ensures Times(0.8, BaseDelay(p, i)) <= Sleep(p, BaseDelay(p, i), r) <= Times(1.2, BaseDelay(p, i))
    ensures Sleep(p, BaseDelay(p, i), r) <= p.maxDelay
    ensures r == 0.0 ==> Sleep(p, BaseDelay(p, i), r) == Times(0.8, BaseDelay(p, i))
    ensures r == 0.5 ==> Sleep(p, BaseDelay(p, i), r) == BaseDelay(p, i)
  {
    ClosedFormAt(p, i);
    PowBounds(p.multiplier, i);
    MulMonotone(0.0, Pow(p.multiplier, i), p.baseDelay);
    ScaleBounds(p, BaseDelay(p, i), r);
  }

  lemma ScaleBounds(p: Policy, d: real, r: real)
    requires 0.0 <= d <= p.maxDelay && 0.0 <= r < 1.0
    ensures Times(0.8, d) <= Sleep(p, d, r) <= Times(1.2, d)
    ensures r == 0.0 ==> Sleep(p, d, r) == Times(0.8, d)
    ensures r == 0.5 ==> Sleep(p, d, r) == d
  {
    MulMonotone(0.8, 0.8 + 0.4 * r, d);
    MulMonotone(0.8 + 0.4 * r, 1.2, d);
  }
}
