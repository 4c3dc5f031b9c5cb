/** The message list of one session (storage/redis_store.go, AppendMessages) under concurrency: every RPUSH
    and every LTRIM is a step of its own, and any number of AppendMessages calls interleave. A call whose
    next message cannot be encoded returns without trimming. */
module RedisMessages {
  import opened Redis

  /** A call: its encoded messages up to the first that cannot be encoded, whether there is such a one, how
      many it has pushed, and whether it has returned. */
  datatype Append = Append(messages: seq<string>, broken: bool, sent: nat, returned: bool)

  /** `pushed` is the global push order, each message with the number of the call that pushed it. */
  datatype Sys = Sys(list: seq<string>, pushed: seq<(nat, string)>, calls: seq<Append>)

  const EMPTY_SYS := Sys([], [], [])

  datatype Action = Begin(messages: seq<string>, broken: bool) | Advance(i: nat)

  function Do(max: int, s: Sys, a: Action): Sys {
    match a
    case Begin(messages, broken) => s.(calls := s.calls + [Append(messages, broken, 0, false)])
    case Advance(i) =>
      if i >= |s.calls| || s.calls[i].returned then s
      else
        var c := s.calls[i];
        if c.sent < |c.messages| then
          Sys(s.list + [c.messages[c.sent]], s.pushed + [(i, c.messages[c.sent])], s.calls[i := c.(sent := c.sent + 1)])
        else if c.broken then
          s.(calls := s.calls[i := c.(returned := true)])
        else
          Sys(Range(s.list, -max, -1), s.pushed, s.calls[i := c.(returned := true)])
  }

  function Run(max: int, actions: seq<Action>): Sys {
    if actions == [] then EMPTY_SYS else Do(max, Run(max, actions[..|actions| - 1]), actions[|actions| - 1])
  }

  function Messages(pushed: seq<(nat, string)>): (r: seq<string>)
    ensures |r| == |pushed|
  {
    seq(|pushed|, i requires 0 <= i < |pushed| => pushed[i].1)
  }

  /** What call i pushed, in order. */
  function PushedBy(pushed: seq<(nat, string)>, i: nat): seq<string> {
    if pushed == [] then []
    else PushedBy(pushed[..|pushed| - 1], i) + if pushed[|pushed| - 1].0 == i then [pushed[|pushed| - 1].1] else []
  }

  /** Messages pushed by calls that have not trimmed, or never will. */
  function Untrimmed(calls: seq<Append>): nat {
    if calls == [] then 0 else Untrimmed(calls[..|calls| - 1]) + Excess(calls[|calls| - 1])
  }

  function Excess(c: Append): nat {
    if c.returned && !c.broken then 0 else c.sent
  }

  lemma {:induction false} UntrimmedUpdate(calls: seq<Append>, i: nat, c: Append)
    requires i < |calls|
    ensures Untrimmed(calls[i := c]) + Excess(calls[i]) == Untrimmed(calls) + Excess(c)
  {
    var n := |calls| - 1;
    if i < n {
      UntrimmedUpdate(calls[..n], i, c);
      assert calls[i := c][..n] == calls[..n][i := c];
    } else {
      assert calls[i := c][..n] == calls[..n];
    }
  }

  /** The list is the most recent part of everything pushed, at least the window and at most the window plus
      what calls still to trim have pushed. */
  ghost predicate WindowOk(max: int, s: Sys) {
    && s.list == Last(Messages(s.pushed), |s.list|)
    && |s.list| >= (if |s.pushed| < max then |s.pushed| else max)
    && |s.list| <= max + Untrimmed(s.calls)
    && |s.list| <= |s.pushed|
  }

  /** Every call has pushed exactly its first `sent` messages, in order. */
  ghost predicate OrderOk(s: Sys) {
    && (forall i :: 0 <= i < |s.calls| ==>
          && s.calls[i].sent <= |s.calls[i].messages| && PushedBy(s.pushed, i) == s.calls[i].messages[..s.calls[i].sent]
          && (s.calls[i].returned ==> s.calls[i].sent == |s.calls[i].messages|))
    && forall k :: 0 <= k < |s.pushed| ==> s.pushed[k].0 < |s.calls|
  }

  lemma PushKeepsWindow(max: int, s: Sys, i: nat)
    requires max >= 1 && WindowOk(max, s)
    requires i < |s.calls| && !s.calls[i].returned && s.calls[i].sent < |s.calls[i].messages|
    ensures WindowOk(max, Do(max, s, Advance(i)))
  {
    var t := Do(max, s, Advance(i));
    var m := s.calls[i].messages[s.calls[i].sent];
    UntrimmedUpdate(s.calls, i, t.calls[i]);
    assert Messages(t.pushed) == Messages(s.pushed) + [m];
    LastSnoc(Messages(s.pushed), m, |t.list|);
  }

  lemma TrimIsExact(max: int, s: Sys, i: nat)
    requires max >= 1 && WindowOk(max, s)
    requires i < |s.calls| && !s.calls[i].returned && !s.calls[i].broken && s.calls[i].sent == |s.calls[i].messages|
    ensures Do(max, s, Advance(i)).list == Last(Messages(s.pushed), max)
    ensures WindowOk(max, Do(max, s, Advance(i)))
  {
    var t := Do(max, s, Advance(i));
    UntrimmedUpdate(s.calls, i, t.calls[i]);
    NegativeIndicesKeepLast(s.list, max);
    if |s.list| >= max {
      LastLast(Messages(s.pushed), max, |s.list|);
    }
  }

  lemma {:induction false} PushedByNobody(pushed: seq<(nat, string)>, i: nat)
    requires forall k :: 0 <= k < |pushed| ==> pushed[k].0 != i
    ensures PushedBy(pushed, i) == []
  {
    if pushed != [] {
      PushedByNobody(pushed[..|pushed| - 1], i);
    }
  }

  lemma PushedBySnoc(pushed: seq<(nat, string)>, i: nat, m: string, j: nat)
    ensures PushedBy(pushed + [(i, m)], j) == PushedBy(pushed, j) + if i == j then [m] else []
  {
    assert (pushed + [(i, m)])[..|pushed|] == pushed;
  }

  lemma BeginKeepsOrder(max: int, s: Sys, messages: seq<string>, broken: bool)
    requires OrderOk(s)
    ensures OrderOk(Do(max, s, Begin(messages, broken)))
  {
    PushedByNobody(s.pushed, |s.calls|);
  }

  lemma PushKeepsOrder(max: int, s: Sys, i: nat)
    requires OrderOk(s)
    requires i < |s.calls| && !s.calls[i].returned && s.calls[i].sent < |s.calls[i].messages|
    ensures OrderOk(Do(max, s, Advance(i)))
  {
    var t, c := Do(max, s, Advance(i)), s.calls[i];
    forall j | 0 <= j < |t.calls|
      ensures t.calls[j].sent <= |t.calls[j].messages| && PushedBy(t.pushed, j) == t.calls[j].messages[..t.calls[j].sent]
      ensures t.calls[j].returned ==> t.calls[j].sent == |t.calls[j].messages|
    {
      PushedBySnoc(s.pushed, i, c.messages[c.sent], j);
      if j == i {
        assert c.messages[..c.sent + 1] == c.messages[..c.sent] + [c.messages[c.sent]];
      }
    }
  }

  lemma StepKeepsOrder(max: int, s: Sys, a: Action)
    requires OrderOk(s)
    ensures OrderOk(Do(max, s, a))
  {
    match a
    case Begin(messages, broken) => BeginKeepsOrder(max, s, messages, broken);
    case Advance(i) =>
      if i < |s.calls| && !s.calls[i].returned && s.calls[i].sent < |s.calls[i].messages| {
        PushKeepsOrder(max, s, i);
      }
  }

  lemma {:induction false} Always(max: int, actions: seq<Action>)
    requires max >= 1
    ensures WindowOk(max, Run(max, actions)) && OrderOk(Run(max, actions))
  {
    if actions != [] {
      Always(max, actions[..|actions| - 1]);
      var s, a := Run(max, actions[..|actions| - 1]), actions[|actions| - 1];
      StepKeepsOrder(max, s, a);
      if a.Begin? {
        assert Do(max, s, a).calls[..|s.calls|] == s.calls;
      } else if a.i < |s.calls| && !s.calls[a.i].returned {
        if s.calls[a.i].sent < |s.calls[a.i].messages| {
          PushKeepsWindow(max, s, a.i);
        } else if s.calls[a.i].broken {
          UntrimmedUpdate(s.calls, a.i, Do(max, s, a).calls[a.i]);
        } else {
          TrimIsExact(max, s, a.i);
        }
      }
    }
  }

  lemma {:induction false} AllTrimmed(calls: seq<Append>)
    requires forall i :: 0 <= i < |calls| ==> Excess(calls[i]) == 0
    ensures Untrimmed(calls) == 0
  {
    if calls != [] {
      AllTrimmed(calls[..|calls| - 1]);
    }
  }

  /** What the invariants say about the list and about each call. */
  ghost predicate Slides(max: nat, s: Sys) {
    && |s.list| <= |s.pushed| && s.list == Messages(s.pushed)[|s.pushed| - |s.list|..]
    && |s.list| >= (if |s.pushed| < max then |s.pushed| else max)
    && ((forall i :: 0 <= i < |s.calls| ==> Excess(s.calls[i]) == 0) ==> s.list == Last(Messages(s.pushed), max))
    && (forall i :: 0 <= i < |s.calls| ==> PushedBy(s.pushed, i) <= s.calls[i].messages)
    && (forall i :: 0 <= i < |s.calls| && s.calls[i].returned ==> PushedBy(s.pushed, i) == s.calls[i].messages)
  }

  lemma InvariantsSlide(max: int, s: Sys)
    requires max >= 1 && WindowOk(max, s) && OrderOk(s)
    ensures Slides(max, s)
  {
    if forall i :: 0 <= i < |s.calls| ==> Excess(s.calls[i]) == 0 {
      AllTrimmed(s.calls);
    }
  }

  /** The sliding window under concurrency. For every interleaving: the list is a suffix of the global push
      order, of length at least min(pushed, maxMessages); whenever every call that pushed has trimmed it is
      exactly the last min(pushed, maxMessages) messages; and a call's messages stand in the push order in
      their own order, those it could encode all of them once it has returned, none repeated. */
  lemma SlidingWindow(max: int, actions: seq<Action>)
    requires max >= 1
    ensures Slides(max, Run(max, actions))
  {
    Always(max, actions);
    InvariantsSlide(max, Run(max, actions));
  }

  /** Right after any trim, whoever else is still pushing, the list is exactly the last
      min(pushed, maxMessages) messages. */
  lemma TrimRestoresWindow(max: int, actions: seq<Action>, i: nat)
    requires max >= 1
    requires var s := Run(max, actions);
             i < |s.calls| && !s.calls[i].returned && !s.calls[i].broken && s.calls[i].sent == |s.calls[i].messages|
    ensures var t := Run(max, actions + [Advance(i)]);
            t.calls[i].returned && t.list == Last(Messages(t.pushed), max)
  {
    Always(max, actions);
    TrimIsExact(max, Run(max, actions), i);
    assert (actions + [Advance(i)])[..|actions|] == actions;
  }
}
