/** In which order checkpoints are listed and dropped (storage/redis_store.go, Save and ListCheckpoints). The
    index is ordered by milliseconds, ties by the encoded metadata; the metadata records nanoseconds. */
module RedisListing {
  import opened Core
  import opened Redis
  import opened RedisCheckpoints
  import opened RedisStore

  /** When the checkpoint behind an entry was created. */
  function Created(cfg: Settings, e: Entry): int {
    var m := cfg.decodeMeta(e.member);
    if m.Some? then m.value.createdAt else 0
  }

  ghost predicate Dated(cfg: Settings, entries: seq<Entry>) {
    forall e :: e in entries ==> cfg.decodeMeta(e.member).Some? && e.score == Millis(Created(cfg, e))
  }

  /** What ListCheckpoints returns on this index. */
  function Listed(cfg: Settings, z: seq<Entry>): seq<Meta> {
    Reversed(Decoded(cfg, z))
  }

  ghost predicate NewestFirst(listed: seq<Meta>) {
    forall i, j :: 0 <= i < j < |listed| ==> listed[i].createdAt >= listed[j].createdAt
  }

  /** Two entries of one millisecond that the order of their members puts against time. */
  predicate AgainstTime(cfg: Settings, e: Entry, f: Entry) {
    e.score == f.score && Less(e.member, f.member) && Created(cfg, e) > Created(cfg, f)
  }

  ghost predicate NoneAgainstTime(cfg: Settings, entries: seq<Entry>) {
    forall e, f :: e in entries && f in entries ==> !AgainstTime(cfg, e, f)
  }

  // ---- every index and everything ever added is dated ----

  lemma ExplainedIsDated(cfg: Settings, s: Sys, key: string, e: Entry)
    requires ReadableJobs(cfg, s) && Explained(cfg, s, key, e)
    ensures cfg.decodeMeta(e.member).Some? && e.score == Millis(Created(cfg, e))
  {
    var i :| 0 <= i < |s.jobs| && HasIndexed(s.jobs[i]) && KeyOf(cfg, s.jobs[i]) == key && EntryOf(cfg, s.jobs[i]) == e;
    assert Readable(cfg, MetaOf(s.jobs[i]));
  }

  lemma IndexIsDated(cfg: Settings, actions: seq<Action>, key: string)
    requires ReadableSaves(cfg, actions)
    ensures Dated(cfg, IndexAt(Run(cfg, actions), key))
  {
    InvAlways(cfg, actions);
    var s := Run(cfg, actions);
    forall e | e in IndexAt(s, key) ensures cfg.decodeMeta(e.member).Some? && e.score == Millis(Created(cfg, e)) {
      ExplainedIsDated(cfg, s, key, e);
    }
  }

  lemma {:induction false} AddedUnderFrom(added: seq<(string, Entry)>, key: string, e: Entry)
    requires e in AddedUnder(added, key)
    ensures (key, e) in added
  {
    var n := |added| - 1;
    if added[n] != (key, e) {
      AddedUnderFrom(added[..n], key, e);
    }
  }

  lemma SavedIsExplained(cfg: Settings, actions: seq<Action>, key: string, e: Entry)
    requires ReadableSaves(cfg, actions)
    requires e in AddedUnder(Run(cfg, actions).added, key)
    ensures Inv(cfg, Run(cfg, actions)) && Explained(cfg, Run(cfg, actions), key, e)
  {
    InvAlways(cfg, actions);
    AddedUnderFrom(Run(cfg, actions).added, key, e);
  }

  // ---- the listing ----

  lemma ListedDates(cfg: Settings, z: seq<Entry>, i: nat)
    requires Dated(cfg, z) && i < |z|
    ensures |Listed(cfg, z)| == |z|
    ensures Some(Listed(cfg, z)[i]) == cfg.decodeMeta(z[|z| - 1 - i].member)
    ensures Listed(cfg, z)[i].createdAt == Created(cfg, z[|z| - 1 - i])
  {
    DecodedInOrder(cfg, z);
  }

  /** At every step of every interleaving, listing a session's checkpoints gives one item per index entry, by
      falling millisecond, and the data of every item is there. */
  lemma ListingFallsByMillisecond(cfg: Settings, actions: seq<Action>, key: string)
    requires ReadableSaves(cfg, actions) && cfg.maxCheckpoints >= 1
    ensures var s := Run(cfg, actions);
            var listed := Listed(cfg, IndexAt(s, key));
            && |listed| == |IndexAt(s, key)|
            && (forall i, j :: 0 <= i < j < |listed| ==> Millis(listed[i].createdAt) >= Millis(listed[j].createdAt))
            && (forall i :: 0 <= i < |listed| ==> DataKey(cfg, listed[i].checkpointID) in s.strings)
  {
    var s := Run(cfg, actions);
    var z := IndexAt(s, key);
    IndexIsDated(cfg, actions, key);
    IndexSorted(cfg, actions, key);
    DecodedInOrder(cfg, z);
    forall i, j | 0 <= i < j < |z| ensures Millis(Listed(cfg, z)[i].createdAt) >= Millis(Listed(cfg, z)[j].createdAt) {
      ListedFalls(cfg, z, i, j);
    }
    forall i | 0 <= i < |z| ensures DataKey(cfg, Listed(cfg, z)[i].checkpointID) in s.strings {
      ListedIsThere(cfg, actions, key, i);
    }
  }

  lemma ListedFalls(cfg: Settings, z: seq<Entry>, i: nat, j: nat)
    requires Sorted(z) && Dated(cfg, z) && i < j < |z|
    ensures |Listed(cfg, z)| == |z| && Millis(Listed(cfg, z)[i].createdAt) >= Millis(Listed(cfg, z)[j].createdAt)
  {
    ListedDates(cfg, z, i);
    ListedDates(cfg, z, j);
    assert Before(z[|z| - 1 - j], z[|z| - 1 - i]);
  }

  lemma ListedIsThere(cfg: Settings, actions: seq<Action>, key: string, i: nat)
    requires ReadableSaves(cfg, actions) && i < |IndexAt(Run(cfg, actions), key)|
    ensures var s := Run(cfg, actions);
            && |Listed(cfg, IndexAt(s, key))| == |IndexAt(s, key)|
            && DataKey(cfg, Listed(cfg, IndexAt(s, key))[i].checkpointID) in s.strings
  {
    var z := IndexAt(Run(cfg, actions), key);
    IndexIsDated(cfg, actions, key);
    ListedDates(cfg, z, i);
    NoDanglingCheckpoints(cfg, actions, key, |z| - 1 - i);
  }

  ghost predicate Rises(cfg: Settings, z: seq<Entry>) {
    forall i, j :: 0 <= i < j < |z| ==> Created(cfg, z[i]) <= Created(cfg, z[j])
  }

  lemma BeforeInTime(cfg: Settings, e: Entry, f: Entry)
    requires e.score == Millis(Created(cfg, e)) && f.score == Millis(Created(cfg, f))
    requires Before(e, f) && !AgainstTime(cfg, e, f)
    ensures Created(cfg, e) <= Created(cfg, f)
  {
  }

  lemma RisingPair(cfg: Settings, z: seq<Entry>, a: nat, b: nat)
    requires Sorted(z) && Rises(cfg, z) && a < |z| && b < |z|
    ensures !AgainstTime(cfg, z[a], z[b])
  {
    LessTotal(z[a].member, z[b].member);
    if b < a {
      assert Before(z[b], z[a]);
    }
  }

  lemma RisesIff(cfg: Settings, z: seq<Entry>)
    requires Sorted(z) && Dated(cfg, z)
    ensures Rises(cfg, z) <==> NoneAgainstTime(cfg, z)
  {
    if NoneAgainstTime(cfg, z) {
      forall i, j | 0 <= i < j < |z| ensures Created(cfg, z[i]) <= Created(cfg, z[j]) {
        assert z[i] in z && z[j] in z;
        BeforeInTime(cfg, z[i], z[j]);
      }
    }
    if Rises(cfg, z) {
      forall e, f | e in z && f in z ensures !AgainstTime(cfg, e, f) {
        var a :| 0 <= a < |z| && z[a] == e;
        var b :| 0 <= b < |z| && z[b] == f;
        RisingPair(cfg, z, a, b);
      }
    }
  }

  lemma NewestFirstMeansRises(cfg: Settings, z: seq<Entry>)
    requires Dated(cfg, z)
    ensures NewestFirst(Listed(cfg, z)) <==> Rises(cfg, z)
  {
    var listed := Listed(cfg, z);
    DecodedInOrder(cfg, z);
    forall i | 0 <= i < |z| ensures listed[|z| - 1 - i].createdAt == Created(cfg, z[i]) {
      ListedDates(cfg, z, |z| - 1 - i);
    }
    if NewestFirst(listed) {
      forall i, j | 0 <= i < j < |z| ensures Created(cfg, z[i]) <= Created(cfg, z[j]) {
        assert listed[|z| - 1 - j].createdAt >= listed[|z| - 1 - i].createdAt;
      }
    }
    if Rises(cfg, z) {
      forall i, j | 0 <= i < j < |listed| ensures listed[i].createdAt >= listed[j].createdAt {
        assert Created(cfg, z[|z| - 1 - j]) <= Created(cfg, z[|z| - 1 - i]);
        assert listed[|z| - 1 - (|z| - 1 - j)] == listed[j] && listed[|z| - 1 - (|z| - 1 - i)] == listed[i];
      }
    }
  }

  /** At every step of every interleaving, a session is listed newest first exactly when no two of its listed
      checkpoints were saved within one millisecond with members ordered against time. */
  lemma ListingIsNewestFirstIff(cfg: Settings, actions: seq<Action>, key: string)
    requires ReadableSaves(cfg, actions) && cfg.maxCheckpoints >= 1
    ensures var z := IndexAt(Run(cfg, actions), key);
            NewestFirst(Listed(cfg, z)) <==> NoneAgainstTime(cfg, z)
  {
    var z := IndexAt(Run(cfg, actions), key);
    IndexIsDated(cfg, actions, key);
    IndexSorted(cfg, actions, key);
    NewestFirstMeansRises(cfg, z);
    RisesIff(cfg, z);
  }

  /** No save of the key was made within the same millisecond as another. */
  ghost predicate Spaced(cfg: Settings, s: Sys, key: string) {
    forall i, j :: 0 <= i < j < |s.jobs| && KeyOf(cfg, s.jobs[i]) == KeyOf(cfg, s.jobs[j]) == key ==>
      Millis(s.jobs[i].now) != Millis(s.jobs[j].now)
  }

  lemma SpacedMeansInTime(cfg: Settings, s: Sys, key: string, e: Entry, f: Entry)
    requires Spaced(cfg, s, key) && ReadableJobs(cfg, s)
    requires Explained(cfg, s, key, e) && Explained(cfg, s, key, f)
    ensures !AgainstTime(cfg, e, f)
  {
    var i :| 0 <= i < |s.jobs| && HasIndexed(s.jobs[i]) && KeyOf(cfg, s.jobs[i]) == key && EntryOf(cfg, s.jobs[i]) == e;
    var j :| 0 <= j < |s.jobs| && HasIndexed(s.jobs[j]) && KeyOf(cfg, s.jobs[j]) == key && EntryOf(cfg, s.jobs[j]) == f;
    if i == j {
      LessTotal(e.member, f.member);
    }
  }

  /** Saves of a session in distinct milliseconds suffice, at least a millisecond apart in particular: then
      its listing is newest first, and once no prune is pending it shows the newest of everything ever
      saved. */
  lemma SpacedSavesListNewest(cfg: Settings, actions: seq<Action>, key: string)
    requires ReadableSaves(cfg, actions) && cfg.maxCheckpoints >= 1
    requires Spaced(cfg, Run(cfg, actions), key)
    ensures var s := Run(cfg, actions);
            var z := IndexAt(s, key);
            && NewestFirst(Listed(cfg, z))
            && (Pending(cfg, s.jobs, key) == 0 ==>
                  forall x, y :: x in multiset(AddedUnder(s.added, key)) - multiset(z) && y in z ==>
                    Created(cfg, x) <= Created(cfg, y))
  {
    var s := Run(cfg, actions);
    var z := IndexAt(s, key);
    InvAlways(cfg, actions);
    forall e, f | e in z && f in z ensures !AgainstTime(cfg, e, f) {
      SpacedMeansInTime(cfg, s, key, e, f);
    }
    ListingIsNewestFirstIff(cfg, actions, key);
    StreamingTopK(cfg, actions, key);
    var saved := AddedUnder(s.added, key);
    if Pending(cfg, s.jobs, key) == 0 {
      forall x, y | x in multiset(saved) - multiset(z) && y in z ensures Created(cfg, x) <= Created(cfg, y) {
        assert Before(x, y);
        assert x in multiset(saved);
        SavedIsExplained(cfg, actions, key, x);
        ExplainedIsDated(cfg, s, key, x);
        ExplainedIsDated(cfg, s, key, y);
        SpacedMeansInTime(cfg, s, key, x, y);
        BeforeInTime(cfg, x, y);
      }
    }
  }

  // ---- two saves within a millisecond ----

  const OLDER := Meta("b", "s", 1)
  const NEWER := Meta("a", "s", 2)

  function EncodeID(m: Meta): string {
    m.checkpointID
  }

  function DecodeID(member: string): Option<Meta> {
    if member == OLDER.checkpointID then Some(OLDER) else if member == NEWER.checkpointID then Some(NEWER) else None
  }

  function EncodeNothing(st: AgentState): string {
    ""
  }

  function DecodeNothing(data: string): Option<AgentState> {
    Some(NEW_STATE)
  }

  const KEEP_ONE := Settings("p", 1, EncodeNothing, DecodeNothing, EncodeID, DecodeID)

  /** A save of one session that completes without interruption, as the i-th. */
  function WholeSave(before: seq<Action>, id: string, now: int, i: nat): seq<Action> {
    before + [Begin("t", "s", id, now, NEW_STATE)] + [Advance(i)] + [Advance(i)] + [Advance(i)]
  }

  /** The older save completes, then the newer. */
  const BOTH_SAVED: seq<Action> := WholeSave(WholeSave([], "b", 1, 0), "a", 2, 1)

  lemma RunSnoc(cfg: Settings, actions: seq<Action>, a: Action)
    ensures Run(cfg, actions + [a]) == Do(cfg, Run(cfg, actions), a)
  {
    assert (actions + [a])[..|actions|] == actions;
  }

  lemma WholeSaveRuns(before: seq<Action>, id: string, now: int, i: nat)
    requires |Run(KEEP_ONE, before).jobs| == i && FreshID(Run(KEEP_ONE, before), id)
    ensures var s, t := Run(KEEP_ONE, before), Run(KEEP_ONE, WholeSave(before, id, now, i));
            var key := IndexKey(KEEP_ONE, "t", "s");
            && IndexAt(t, key) == Added(IndexAt(s, key), Entry(Millis(now), id))
            && t.jobs == s.jobs + [Job("t", "s", id, now, NEW_STATE, Indexed)]
  {
    var begin := Begin("t", "s", id, now, NEW_STATE);
    RunSnoc(KEEP_ONE, before, begin);
    RunSnoc(KEEP_ONE, before + [begin], Advance(i));
    RunSnoc(KEEP_ONE, before + [begin] + [Advance(i)], Advance(i));
    RunSnoc(KEEP_ONE, before + [begin] + [Advance(i)] + [Advance(i)], Advance(i));
  }

  lemma BothSavedIndex()
    ensures var s := Run(KEEP_ONE, BOTH_SAVED);
            && IndexAt(s, IndexKey(KEEP_ONE, "t", "s")) == [Entry(0, "a"), Entry(0, "b")]
            && |s.jobs| == 2 && s.jobs[1].stage == Indexed && KeyOf(KEEP_ONE, s.jobs[1]) == IndexKey(KEEP_ONE, "t", "s")
  {
    WholeSaveRuns([], "b", 1, 0);
    assert IndexAt(Run(KEEP_ONE, WholeSave([], "b", 1, 0)), IndexKey(KEEP_ONE, "t", "s")) == [Entry(0, "b")];
    WholeSaveRuns(WholeSave([], "b", 1, 0), "a", 2, 1);
    InsertSmaller();
  }

  lemma InsertSmaller()
    ensures Added([Entry(0, "b")], Entry(0, "a")) == [Entry(0, "a"), Entry(0, "b")]
  {
    var z, e := [Entry(0, "b")], Entry(0, "a");
    assert z[0].member != e.member;
    WithoutAbsent(z, e.member);
    assert Less("a", "b");
    assert z[..0] == [];
    assert Insert(z, e) == Insert([], e) + [z[0]];
  }

  lemma ListedOlder()
    ensures Listed(KEEP_ONE, [Entry(0, "b")]) == [OLDER]
  {
    var z := [Entry(0, "b")];
    assert z[..0] == [];
    assert Decoded(KEEP_ONE, z) == [OLDER];
  }

  lemma ListedBoth()
    ensures Listed(KEEP_ONE, [Entry(0, "a"), Entry(0, "b")]) == [OLDER, NEWER]
  {
    var z := [Entry(0, "a"), Entry(0, "b")];
    assert z[..1] == [Entry(0, "a")] && z[..1][..0] == [];
    assert Decoded(KEEP_ONE, z[..1]) == [NEWER];
    assert Decoded(KEEP_ONE, z) == [NEWER, OLDER];
  }

  lemma PruneKeepsOlder()
    ensures IndexAt(Run(KEEP_ONE, BOTH_SAVED + [Advance(1)]), IndexKey(KEEP_ONE, "t", "s")) == [Entry(0, "b")]
  {
    BothSavedIndex();
    RunSnoc(KEEP_ONE, BOTH_SAVED, Advance(1));
    NegativeIndicesKeepLast([Entry(0, "a"), Entry(0, "b")], 1);
  }

  lemma ReadableSnoc(cfg: Settings, actions: seq<Action>, a: Action)
    requires ReadableSaves(cfg, actions) && (a.Begin? ==> Readable(cfg, Meta(a.id, a.session, a.now)))
    ensures ReadableSaves(cfg, actions + [a])
  {
  }

  lemma WholeSaveReadable(before: seq<Action>, id: string, now: int, i: nat)
    requires ReadableSaves(KEEP_ONE, before) && Readable(KEEP_ONE, Meta(id, "s", now))
    ensures ReadableSaves(KEEP_ONE, WholeSave(before, id, now, i))
  {
    var begin := Begin("t", "s", id, now, NEW_STATE);
    ReadableSnoc(KEEP_ONE, before, begin);
    ReadableSnoc(KEEP_ONE, before + [begin], Advance(i));
    ReadableSnoc(KEEP_ONE, before + [begin] + [Advance(i)], Advance(i));
    ReadableSnoc(KEEP_ONE, before + [begin] + [Advance(i)] + [Advance(i)], Advance(i));
  }

  /** The later of two saves within a millisecond, if its ID happens to be the smaller one, is listed last;
      and with room for one checkpoint, the prune drops it and keeps the older. */
  lemma SameMillisecondListsOlderFirst()
    ensures ReadableSaves(KEEP_ONE, BOTH_SAVED)
    ensures var key := IndexKey(KEEP_ONE, "t", "s");
            && Listed(KEEP_ONE, IndexAt(Run(KEEP_ONE, BOTH_SAVED), key)) == [OLDER, NEWER]
            && Listed(KEEP_ONE, IndexAt(Run(KEEP_ONE, BOTH_SAVED + [Advance(1)]), key)) == [OLDER]
    ensures !NewestFirst([OLDER, NEWER])
  {
    WholeSaveReadable([], "b", 1, 0);
    WholeSaveReadable(WholeSave([], "b", 1, 0), "a", 2, 1);
    BothSavedIndex();
    ListedBoth();
    PruneKeepsOlder();
    ListedOlder();
    assert [OLDER, NEWER][0].createdAt < [OLDER, NEWER][1].createdAt;
  }
}
