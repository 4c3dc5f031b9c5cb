/** Lifecycle hooks: what the engine reports, and the latency hook fed by it (engine/hooks.go). */
module Hooks {
  import opened Core

  datatype Point = BeforeNode | AfterNode | OnError

  datatype Meta = Meta(point: Point, nodeID: string, stepCount: int, err: Option<Err>)

  /** The engine reports steps as brackets: BeforeNode, then AfterNode or OnError for the same node one
      step count later. */
  ghost predicate Bracketed(trace: seq<Meta>) {
    |trace| % 2 == 0 && forall j :: 0 <= j < |trace| / 2 ==> IsBracket(trace[2 * j], trace[2 * j + 1])
  }

  predicate IsBracket(open: Meta, close: Meta) {
    open.point == BeforeNode && close.point != BeforeNode && close.nodeID == open.nodeID
    && close.stepCount == open.stepCount + 1
  }

  /** What the hook's five maps hold under one node ID; an absent total or count reads as zero. */
  datatype Cell = Cell(started: Option<int>, min: Option<int>, max: Option<int>, total: int, count: int)

  const EMPTY_CELL := Cell(None, None, None, 0, 0)

  /** One hook call for this node. */
  function Observe(c: Cell, point: Point, now: int): Cell {
    if point == BeforeNode then c.(started := Some(now))
    else if c.started == None then c
    else
      var elapsed := now - c.started.value;
      Cell(None,
           if c.min == None || elapsed < c.min.value then Some(elapsed) else c.min,
           if c.max == None || elapsed > c.max.value then Some(elapsed) else c.max,
           c.total + elapsed,
           c.count + 1)
  }

  /** Go's integer division rounds toward zero. */
  function Quotient(n: int, d: int): int
    requires d > 0
  {
    if n >= 0 then n / d else -((-n) / d)
  }

  function Avg(c: Cell): int
    requires c.count >= 0
  {
    if c.count == 0 then 0 else Quotient(c.total, c.count)
  }

  function Lookup(m: map<string, int>, k: string): Option<int> {
    if k in m then Some(m[k]) else None
  }

  function Get(m: map<string, int>, k: string): int {
    if k in m then m[k] else 0
  }

  class LatencyMetricHook {
    var started: map<string, int>
    var min: map<string, int>
    var max: map<string, int>
    var total: map<string, int>
    var count: map<string, int>

    function At(id: string): Cell
      reads this
    {
      Cell(Lookup(started, id), Lookup(min, id), Lookup(max, id), Get(total, id), Get(count, id))
    }

    constructor ()
      ensures forall id :: At(id) == EMPTY_CELL
    {
      started, min, max, total, count := map[], map[], map[], map[], map[];
    }

    method OnHook(meta: Meta, now: int)
      modifies this
      ensures At(meta.nodeID) == Observe(old(At(meta.nodeID)), meta.point, now)
      ensures forall id :: id != meta.nodeID ==> At(id) == old(At(id))
    {
      match meta.point {
        case BeforeNode =>
          started := started[meta.nodeID := now];
        case _ =>
          if meta.nodeID !in started {
            return;
          }
          var elapsed := now - started[meta.nodeID];
          started := started - {meta.nodeID};
          count := count[meta.nodeID := Get(count, meta.nodeID) + 1];
          total := total[meta.nodeID := Get(total, meta.nodeID) + elapsed];
          WidenRange(meta.nodeID, elapsed);
      }
    }

    method WidenRange(id: string, elapsed: int)
      modifies this`min, this`max
      ensures Lookup(min, id) == if id !in old(min) || elapsed < old(min)[id] then Some(elapsed) else Lookup(old(min), id)
      ensures Lookup(max, id) == if id !in old(max) || elapsed > old(max)[id] then Some(elapsed) else Lookup(old(max), id)
      ensures forall k :: k != id ==> Lookup(min, k) == Lookup(old(min), k) && Lookup(max, k) == Lookup(old(max), k)
    {
      if id !in min || elapsed < min[id] {
        min := min[id := elapsed];
      }
      if id !in max || elapsed > max[id] {
        max := max[id := elapsed];
      }
    }

    method AvgOf(nodeID: string) returns (d: int)
      requires At(nodeID).count >= 0
      ensures d == Avg(At(nodeID))
    {
      if Get(count, nodeID) == 0 {
        return 0;
      }
      d := Quotient(Get(total, nodeID), Get(count, nodeID));
    }
  }

  // ---- the hook driven by an engine trace ----

  /** What the hook holds for node `id` after a whole trace, the i-th call made at times[i]. */
  function Feed(trace: seq<Meta>, times: seq<int>, id: string): Cell
    requires |trace| == |times|
  {
    if trace == [] then EMPTY_CELL
    else
      var n := |trace| - 1;
      var c := Feed(trace[..n], times[..n], id);
      if trace[n].nodeID == id then Observe(c, trace[n].point, times[n]) else c
  }

  /** The durations of the brackets of node `id`, oldest first. */
  function Samples(trace: seq<Meta>, times: seq<int>, id: string): seq<int>
    requires |trace| == |times| && |trace| % 2 == 0
  {
    if trace == [] then []
    else
      var n := |trace| - 2;
      Samples(trace[..n], times[..n], id) + if trace[n].nodeID == id then [times[n + 1] - times[n]] else []
  }

  function Sum(s: seq<int>): int {
    if s == [] then 0 else Sum(s[..|s| - 1]) + s[|s| - 1]
  }

  ghost predicate IsMin(m: Option<int>, s: seq<int>) {
    if s == [] then m == None else m.Some? && m.value in s && forall x :: x in s ==> m.value <= x
  }

  ghost predicate IsMax(m: Option<int>, s: seq<int>) {
    if s == [] then m == None else m.Some? && m.value in s && forall x :: x in s ==> x <= m.value
  }

  /** The cell is idle and its figures are those of the samples `s`. */
  ghost predicate Describes(c: Cell, s: seq<int>) {
    c.started == None && c.count == |s| && c.total == Sum(s) && IsMin(c.min, s) && IsMax(c.max, s)
  }

  lemma DescribesStep(c: Cell, s: seq<int>, start: int, point: Point, end: int)
    requires Describes(c, s) && point != BeforeNode
    ensures Describes(Observe(Observe(c, BeforeNode, start), point, end), s + [end - start])
  {
    var t := s + [end - start];
    assert t[..|s|] == s;
    assert t[|s|] in t;
    assert forall y :: y in s ==> y in t;
  }

  lemma BracketedPrefix(trace: seq<Meta>)
    requires Bracketed(trace) && trace != []
    ensures |trace| >= 2 && Bracketed(trace[..|trace| - 2])
    ensures IsBracket(trace[|trace| - 2], trace[|trace| - 1])
  {
    var n := |trace| - 2;
    assert IsBracket(trace[2 * (n / 2)], trace[2 * (n / 2) + 1]);
    var t := trace[..n];
    assert forall j :: 0 <= j < |t| / 2 ==> t[2 * j] == trace[2 * j] && t[2 * j + 1] == trace[2 * j + 1];
  }

  lemma FeedSnoc(trace: seq<Meta>, times: seq<int>, m: Meta, now: int, id: string)
    requires |trace| == |times|
    ensures Feed(trace + [m], times + [now], id)
         == if m.nodeID == id then Observe(Feed(trace, times, id), m.point, now) else Feed(trace, times, id)
  {
    assert (trace + [m])[..|trace|] == trace && (times + [now])[..|times|] == times;
  }

  lemma SamplesSnoc(trace: seq<Meta>, times: seq<int>, open: Meta, close: Meta, start: int, end: int, id: string)
    requires |trace| == |times| && |trace| % 2 == 0
    ensures Samples(trace + [open] + [close], times + [start] + [end], id)
         == Samples(trace, times, id) + if open.nodeID == id then [end - start] else []
  {
    assert (trace + [open] + [close])[..|trace|] == trace;
    assert (times + [start] + [end])[..|times|] == times;
  }

  lemma BracketDescribes(trace: seq<Meta>, times: seq<int>, open: Meta, close: Meta, start: int, end: int, id: string)
    requires |trace| == |times| && |trace| % 2 == 0
    requires Describes(Feed(trace, times, id), Samples(trace, times, id)) && IsBracket(open, close)
    ensures Describes(Feed(trace + [open] + [close], times + [start] + [end], id),
                      Samples(trace + [open] + [close], times + [start] + [end], id))
  {
    FeedSnoc(trace, times, open, start, id);
    FeedSnoc(trace + [open], times + [start], close, end, id);
    SamplesSnoc(trace, times, open, close, start, end, id);
    if open.nodeID == id {
      DescribesStep(Feed(trace, times, id), Samples(trace, times, id), start, close.point, end);
    } else {
      assert Samples(trace, times, id) + [] == Samples(trace, times, id);
    }
  }

  /** Fed with a bracketed trace the hook ends with no start timestamp left over, and for every node its
      count, total, minimum and maximum are those of the node's brackets. */
  lemma {:induction false} FeedDescribes(trace: seq<Meta>, times: seq<int>, id: string)
    requires |trace| == |times| && Bracketed(trace)
    ensures Describes(Feed(trace, times, id), Samples(trace, times, id))
  {
    if trace != [] {
      BracketedPrefix(trace);
      var n := |trace| - 2;
      FeedDescribes(trace[..n], times[..n], id);
      BracketDescribes(trace[..n], times[..n], trace[n], trace[n + 1], times[n], times[n + 1], id);
      assert trace == trace[..n] + [trace[n]] + [trace[n + 1]];
      assert times == times[..n] + [times[n]] + [times[n + 1]];
    }
  }

  lemma {:induction false} SumBetween(s: seq<int>, lo: int, hi: int)
    requires forall x :: x in s ==> lo <= x <= hi
    ensures |s| * lo <= Sum(s) <= |s| * hi
  {
    if s != [] {
      var r := s[..|s| - 1];
      assert forall x :: x in r ==> x in s;
      SumBetween(r, lo, hi);
      assert |s| * lo == |r| * lo + lo && |s| * hi == |r| * hi + hi;
      assert s[|s| - 1] in s;
    }
  }

  lemma Cancel(a: int, b: int, n: int)
    requires n > 0 && a * n < b * n
    ensures a < b
  {
  }

  lemma QuotientBetween(total: int, n: int, lo: int, hi: int)
    requires n > 0 && n * lo <= total <= n * hi && 0 <= total
    ensures lo <= Quotient(total, n) <= hi
  {
    var q := total / n;
    assert q * n <= total < (q + 1) * n;
    Cancel(lo, q + 1, n);
    Cancel(q, hi + 1, n);
  }

  /** The average times the count falls short of the total by less than the count, on the side of zero. */
  lemma AvgTruncates(c: Cell)
    requires c.count > 0
    ensures c.total >= 0 ==> 0 <= c.total - Avg(c) * c.count < c.count
    ensures c.total < 0 ==> -c.count < c.total - Avg(c) * c.count <= 0
  {
    if c.total < 0 {
      var q := (-c.total) / c.count;
      assert -c.total == q * c.count + (-c.total) % c.count;
      assert Avg(c) * c.count == -(q * c.count);
    } else {
      assert c.total == c.total / c.count * c.count + c.total % c.count;
    }
  }

  lemma {:induction false} SamplesNonNegative(trace: seq<Meta>, times: seq<int>, id: string)
    requires |trace| == |times| && |trace| % 2 == 0
    requires forall i, j :: 0 <= i <= j < |times| ==> times[i] <= times[j]
    ensures forall x :: x in Samples(trace, times, id) ==> x >= 0
  {
    if trace != [] {
      SamplesNonNegative(trace[..|trace| - 2], times[..|trace| - 2], id);
    }
  }

  /** On a monotone clock Count*Min <= Total <= Count*Max for every node that ran, and the truncated
      average lies between the minimum and the maximum. */
  lemma AvgWithinBounds(trace: seq<Meta>, times: seq<int>, id: string)
    requires |trace| == |times| && Bracketed(trace)
    requires forall i, j :: 0 <= i <= j < |times| ==> times[i] <= times[j]
    ensures var c := Feed(trace, times, id);
            && c.count >= 0
            && (c.count > 0 ==>
                  && c.min.Some? && c.max.Some?
                  && c.count * c.min.value <= c.total <= c.count * c.max.value
                  && c.min.value <= Avg(c) <= c.max.value)
  {
    FeedDescribes(trace, times, id);
    SamplesNonNegative(trace, times, id);
    var c, s := Feed(trace, times, id), Samples(trace, times, id);
    if s != [] {
      SumBetween(s, c.min.value, c.max.value);
      SumBetween(s, 0, c.max.value);
      QuotientBetween(Sum(s), |s|, c.min.value, c.max.value);
    }
  }
}
