/** The Redis commands the memory store relies on (storage/redis_store.go, RedisClient): strings, lists and
    sorted sets, with Redis's negative indices. A sorted set is the sequence of its entries in rank order. */
module Redis {

  datatype Entry = Entry(score: int, member: string)

  /** Byte order on members. */
  predicate Less(a: string, b: string) {
    if b == [] then false
    else if a == [] then true
    else a[0] < b[0] || (a[0] == b[0] && Less(a[1..], b[1..]))
  }

  /** Rank order: by score, ties by member. */
  predicate Before(a: Entry, b: Entry) {
    a.score < b.score || (a.score == b.score && Less(a.member, b.member))
  }

  function Insert(z: seq<Entry>, e: Entry): (r: seq<Entry>)
    ensures |r| == |z| + 1
  {
    if z == [] || !Before(e, z[|z| - 1]) then z + [e]
    else Insert(z[..|z| - 1], e) + [z[|z| - 1]]
  }

  function Without(z: seq<Entry>, member: string): seq<Entry> {
    if z == [] then []
    else Without(z[..|z| - 1], member) + if z[|z| - 1].member == member then [] else [z[|z| - 1]]
  }

  /** ZADD: an existing member moves to its new score. */
  function Added(z: seq<Entry>, e: Entry): seq<Entry> {
    Insert(Without(z, e.member), e)
  }

  function Index(n: nat, i: int): int {
    if i < 0 then n + i else i
  }

  function Low(n: nat, start: int): nat {
    if Index(n, start) < 0 then 0 else Index(n, start)
  }

  function High(n: nat, stop: int): int {
    if Index(n, stop) >= n then n - 1 else Index(n, stop)
  }

  /** LRANGE and ZRANGE. */
  function Range<T>(s: seq<T>, start: int, stop: int): seq<T> {
    if Low(|s|, start) > High(|s|, stop) then [] else s[Low(|s|, start)..High(|s|, stop) + 1]
  }

  /** ZREMRANGEBYRANK. */
  function RemoveRange<T>(s: seq<T>, start: int, stop: int): seq<T> {
    if Low(|s|, start) > High(|s|, stop) then s else s[..Low(|s|, start)] + s[High(|s|, stop) + 1..]
  }

  class Client {
    var strings: map<string, string>
    var lists: map<string, seq<string>>
    var zsets: map<string, seq<Entry>>

    constructor ()
      ensures strings == map[] && lists == map[] && zsets == map[]
    {
      strings, lists, zsets := map[], map[], map[];
    }

    function ListAt(key: string): seq<string>
      reads this
    {
      if key in lists then lists[key] else []
    }

    function ZSetAt(key: string): seq<Entry>
      reads this
    {
      if key in zsets then zsets[key] else []
    }

    method Set(key: string, value: string)
      modifies this`strings
      ensures strings == old(strings)[key := value]
    {
      strings := strings[key := value];
    }

    method RPush(key: string, value: string)
      modifies this`lists
      ensures lists == old(lists)[key := old(ListAt(key)) + [value]]
    {
      lists := lists[key := ListAt(key) + [value]];
    }

    method LTrim(key: string, start: int, stop: int)
      modifies this`lists
      ensures lists == old(lists)[key := Range(old(ListAt(key)), start, stop)]
    {
      lists := lists[key := Range(ListAt(key), start, stop)];
    }

    method ZAdd(key: string, score: int, member: string)
      modifies this`zsets
      ensures zsets == old(zsets)[key := Added(old(ZSetAt(key)), Entry(score, member))]
    {
      zsets := zsets[key := Added(ZSetAt(key), Entry(score, member))];
    }

    method ZRange(key: string, start: int, stop: int) returns (members: seq<string>)
      ensures var r := Range(ZSetAt(key), start, stop);
              members == seq(|r|, i requires 0 <= i < |r| => r[i].member)
    {
      var r := Range(ZSetAt(key), start, stop);
      members := seq(|r|, i requires 0 <= i < |r| => r[i].member);
    }

    method ZRemRangeByRank(key: string, start: int, stop: int)
      modifies this`zsets
      ensures zsets == old(zsets)[key := RemoveRange(old(ZSetAt(key)), start, stop)]
    {
      zsets := zsets[key := RemoveRange(ZSetAt(key), start, stop)];
    }
  }

  // ---- what trimming by negative indices keeps ----

  /** The last k elements. */
  function Last<T>(s: seq<T>, k: nat): (r: seq<T>)
    ensures |r| == if |s| < k then |s| else k
  {
    if |s| <= k then s else s[|s| - k..]
  }

  /** LTRIM -k -1 keeps the last k elements, and ZREMRANGEBYRANK 0 -k-1 removes all but the last k. */
  lemma NegativeIndicesKeepLast<T>(s: seq<T>, k: nat)
    requires k >= 1
    ensures Range(s, 0 - k, -1) == Last(s, k)
    ensures RemoveRange(s, 0, 0 - k - 1) == Last(s, k)
  {
  }

  // ---- the rank order ----

  lemma {:induction false} LessTransitive(a: string, b: string, c: string)
    requires Less(a, b) && Less(b, c)
    ensures Less(a, c)
  {
    if a != [] && a[0] == b[0] && b[0] == c[0] {
      LessTransitive(a[1..], b[1..], c[1..]);
    }
  }

  lemma {:induction false} LessTotal(a: string, b: string)
    ensures Less(a, b) || a == b || Less(b, a)
    ensures !(Less(a, b) && Less(b, a))
  {
    if a != [] && b != [] && a[0] == b[0] {
      LessTotal(a[1..], b[1..]);
      if a[1..] == b[1..] {
        assert a == [a[0]] + a[1..] && b == [b[0]] + b[1..];
      }
    }
  }

  /** `a` precedes `b` at their first difference: a smaller character, or the end of `a`. */
  predicate PrecedesAt(a: string, b: string, i: nat) {
    i <= |a| && i < |b| && a[..i] == b[..i] && (i == |a| || a[i] < b[i])
  }

  lemma {:induction false} LessIsLexicographic(a: string, b: string)
    ensures Less(a, b) <==> exists i: nat :: PrecedesAt(a, b, i)
  {
    if b != [] && (a == [] || a[0] < b[0]) {
      assert PrecedesAt(a, b, 0);
    } else if b != [] && a[0] == b[0] {
      LessIsLexicographic(a[1..], b[1..]);
      if Less(a[1..], b[1..]) {
        var i: nat :| PrecedesAt(a[1..], b[1..], i);
        PrecedesLater(a, b, i);
      }
      if exists i: nat :: PrecedesAt(a, b, i) {
        var i: nat :| PrecedesAt(a, b, i);
        assert i > 0;
        PrecedesLater(a, b, i - 1);
      }
    } else if b != [] {
      forall i: nat ensures !PrecedesAt(a, b, i) {
        if 0 < i <= |a| && i < |b| {
          assert a[..i][0] == a[0] && b[..i][0] == b[0];
        }
      }
    }
  }

  lemma PrecedesLater(a: string, b: string, i: nat)
    requires a != [] && b != [] && a[0] == b[0]
    ensures PrecedesAt(a, b, i + 1) <==> PrecedesAt(a[1..], b[1..], i)
  {
    if i < |a| && i + 1 < |b| {
      assert a[..i + 1] == [a[0]] + a[1..][..i] && b[..i + 1] == [b[0]] + b[1..][..i];
      assert a[1..][..i] == a[..i + 1][1..] && b[1..][..i] == b[..i + 1][1..];
    }
  }

  ghost predicate Sorted(z: seq<Entry>) {
    forall i, j :: 0 <= i < j < |z| ==> Before(z[i], z[j])
  }

  predicate HasMember(z: seq<Entry>, member: string) {
    exists i :: 0 <= i < |z| && z[i].member == member
  }

  lemma {:induction false} WithoutAbsent(z: seq<Entry>, member: string)
    requires !HasMember(z, member)
    ensures Without(z, member) == z
  {
    if z != [] {
      var z0 := z[..|z| - 1];
      assert z[|z| - 1].member != member;
      forall i | 0 <= i < |z0| ensures z0[i].member != member {
        assert z0[i] == z[i];
      }
      WithoutAbsent(z0, member);
      assert z == z0 + [z[|z| - 1]];
    }
  }

  /** Without takes out the entries of that member and no other, and leaves the rest in order. */
  lemma {:induction false} WithoutKeepsOthers(z: seq<Entry>, member: string, y: seq<Entry>)
    ensures !HasMember(Without(z, member), member)
    ensures Without(z + y, member) == Without(z, member) + Without(y, member)
    ensures |z| == 1 && z[0].member != member ==> Without(z, member) == z
    decreases |z| + |y|
  {
    if |z| == 1 {
      assert z[..0] == [];
    }
    if y != [] {
      assert (z + y)[..|z + y| - 1] == z + y[..|y| - 1];
      WithoutKeepsOthers(z, member, y[..|y| - 1]);
    } else {
      assert z + y == z;
      if z != [] {
        WithoutKeepsOthers(z[..|z| - 1], member, []);
      }
    }
  }

  lemma {:induction false} InsertElements(z: seq<Entry>, e: Entry)
    ensures multiset(Insert(z, e)) == multiset(z) + multiset{e}
  {
    if z != [] && Before(e, z[|z| - 1]) {
      InsertElements(z[..|z| - 1], e);
      assert z == z[..|z| - 1] + [z[|z| - 1]];
    }
  }

  /** ZADD leaves one entry of the member, at its new score, and every entry of another member. */
  lemma AddedMoves(z: seq<Entry>, e: Entry)
    ensures e in Added(z, e)
    ensures forall x :: x in Added(z, e) && x.member == e.member ==> x == e
    ensures forall x: Entry :: x.member != e.member ==> (x in Added(z, e) <==> x in z)
  {
    var y := Without(z, e.member);
    InsertElements(y, e);
    forall x ensures x in Added(z, e) <==> x == e || x in y {
      assert x in Added(z, e) <==> x in multiset(Added(z, e));
      assert x in y <==> x in multiset(y);
    }
    WithoutKeepsOthers(z, e.member, []);
    forall x: Entry | x.member != e.member ensures x in y <==> x in z {
      WithoutHas(z, e.member, x);
    }
    forall x | x in y ensures x.member != e.member {
      WithoutHas(z, e.member, x);
    }
  }

  lemma {:induction false} WithoutHas(z: seq<Entry>, member: string, x: Entry)
    ensures x in Without(z, member) <==> x in z && x.member != member
  {
    if z != [] {
      WithoutHas(z[..|z| - 1], member, x);
      assert z == z[..|z| - 1] + [z[|z| - 1]];
    }
  }

  lemma BeforeTransitive(a: Entry, b: Entry, c: Entry)
    requires Before(a, b) && Before(b, c)
    ensures Before(a, c)
  {
    if a.score == b.score && b.score == c.score {
      LessTransitive(a.member, b.member, c.member);
    }
  }

  ghost predicate Below(z: seq<Entry>, x: Entry) {
    forall i :: 0 <= i < |z| ==> Before(z[i], x)
  }

  lemma SortedSplit(z: seq<Entry>)
    requires Sorted(z) && z != []
    ensures Sorted(z[..|z| - 1]) && Below(z[..|z| - 1], z[|z| - 1])
  {
  }

  lemma SortedSnoc(z: seq<Entry>, x: Entry)
    requires Sorted(z) && Below(z, x)
    ensures Sorted(z + [x])
  {
  }

  lemma BelowAbove(z: seq<Entry>, x: Entry, y: Entry)
    requires Below(z, x) && Before(x, y)
    ensures Below(z, y)
  {
    forall i | 0 <= i < |z| ensures Before(z[i], y) {
      BeforeTransitive(z[i], x, y);
    }
  }

  lemma {:induction false} InsertBelow(z: seq<Entry>, e: Entry, x: Entry)
    requires Below(z, x) && Before(e, x)
    ensures Below(Insert(z, e), x)
  {
    if z != [] && Before(e, z[|z| - 1]) {
      InsertBelow(z[..|z| - 1], e, x);
    }
  }

  lemma {:induction false} InsertSorted(z: seq<Entry>, e: Entry)
    requires Sorted(z) && !HasMember(z, e.member)
    ensures Sorted(Insert(z, e))
  {
    if z == [] {
      SortedSnoc(z, e);
    } else {
      var z0, x := z[..|z| - 1], z[|z| - 1];
      SortedSplit(z);
      assert e.member != x.member;
      LessTotal(e.member, x.member);
      if Before(e, x) {
        assert !HasMember(z0, e.member);
        InsertSorted(z0, e);
        InsertBelow(z0, e, x);
        SortedSnoc(Insert(z0, e), x);
      } else {
        BelowAbove(z0, x, e);
        assert Below(z, e);
        SortedSnoc(z, e);
      }
    }
  }

  lemma LastTail<T>(z: seq<T>, k: nat)
    requires z != [] && k > 0
    ensures Last(z, k) == Last(z[..|z| - 1], k - 1) + [z[|z| - 1]]
  {
    assert z == z[..|z| - 1] + [z[|z| - 1]];
    LastSnoc(z[..|z| - 1], z[|z| - 1], k);
  }

  /** The top k after an insertion depend only on the top k before it. */
  lemma {:induction false} InsertTop(z: seq<Entry>, e: Entry, k: nat)
    ensures Last(Insert(z, e), k) == Last(Insert(Last(z, k), e), k)
  {
    if z != [] && k > 0 {
      var x := z[|z| - 1];
      if Before(e, x) {
        InsertTop(z[..|z| - 1], e, k - 1);
        InsertTopBelow(z, e, k);
      } else {
        LastTail(z, k);
        LastSnoc(z, e, k);
        LastSnoc(Last(z, k), e, k);
        LastLast(z, k - 1, k);
      }
    }
  }

  lemma InsertTopBelow(z: seq<Entry>, e: Entry, k: nat)
    requires z != [] && k > 0 && Before(e, z[|z| - 1])
    requires var z0 := z[..|z| - 1];
             Last(Insert(z0, e), k - 1) == Last(Insert(Last(z0, k - 1), e), k - 1)
    ensures Last(Insert(z, e), k) == Last(Insert(Last(z, k), e), k)
  {
    var z0, x := z[..|z| - 1], z[|z| - 1];
    var t := Last(z, k);
    LastTail(z, k);
    assert t[|t| - 1] == x && t[..|t| - 1] == Last(z0, k - 1);
    LastSnoc(Insert(z0, e), x, k);
    LastSnoc(Insert(Last(z0, k - 1), e), x, k);
  }

  lemma LastSnoc<T>(s: seq<T>, x: T, k: nat)
    requires k > 0
    ensures Last(s + [x], k) == Last(s, k - 1) + [x]
  {
  }

  lemma LastLast<T>(s: seq<T>, k: nat, m: nat)
    requires k <= m
    ensures Last(Last(s, m), k) == Last(s, k)
  {
  }
}
