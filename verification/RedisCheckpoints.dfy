/** Checkpoint saves of the Redis memory store (storage/redis_store.go) as interleaved steps. The three
    writes of a Save are separate steps, because the driver's TxExec is a pipeline, and so is the prune each
    Save leaves behind; any number of them, on any sessions and tenants, interleave in any order and may
    stall for ever. Keys are the real key strings. */
module RedisCheckpoints {
  import opened Core
  import opened Redis

  /** Time is in nanoseconds. */
  datatype Meta = Meta(checkpointID: string, sessionID: string, createdAt: int)

  datatype Settings = Settings(
    prefix: string,
    maxCheckpoints: int,
    encodeState: AgentState -> string,
    decodeState: string -> Option<AgentState>,
    encodeMeta: Meta -> string,
    decodeMeta: string -> Option<Meta>)

  /** UnixMilli of a reading in nanoseconds. */
  function Millis(now: int): (ms: int)
    ensures ms * 1_000_000 <= now < (ms + 1) * 1_000_000
  {
    now / 1_000_000
  }

  function StateKey(cfg: Settings, tenant: string, session: string): string {
    cfg.prefix + ":" + tenant + ":" + session + ":state"
  }

  function IndexKey(cfg: Settings, tenant: string, session: string): string {
    cfg.prefix + ":" + tenant + ":" + session + ":ckpts"
  }

  function DataKey(cfg: Settings, id: string): string {
    cfg.prefix + ":ckpt:" + id
  }

  /** How far a Save has come: nothing written, state set, checkpoint data set, indexed, pruned. */
  datatype Stage = Begun | StateSet | DataSet | Indexed | Pruned

  datatype Job = Job(tenant: string, session: string, id: string, now: int, state: AgentState, stage: Stage)

  /** `added` records every ZADD: the index key and the entry. */
  datatype Sys = Sys(
    strings: map<string, string>,
    zsets: map<string, seq<Entry>>,
    jobs: seq<Job>,
    added: seq<(string, Entry)>)

  const EMPTY_SYS := Sys(map[], map[], [], [])

  /** `Begin` is a Save call minting its checkpoint ID and reading its clock; `Advance(i)` is the next step
      of the i-th Save. */
  datatype Action =
    | Begin(tenant: string, session: string, id: string, now: int, state: AgentState)
    | Advance(i: nat)

  function IndexAt(s: Sys, key: string): seq<Entry> {
    if key in s.zsets then s.zsets[key] else []
  }

  function MetaOf(j: Job): Meta {
    Meta(j.id, j.session, j.now)
  }

  /** The score keeps only the milliseconds of the time the metadata records. */
  function EntryOf(cfg: Settings, j: Job): Entry {
    Entry(Millis(j.now), cfg.encodeMeta(MetaOf(j)))
  }

  function KeyOf(cfg: Settings, j: Job): string {
    IndexKey(cfg, j.tenant, j.session)
  }

  /** A UUID: no colon, and never seen before. */
  predicate FreshID(s: Sys, id: string) {
    ':' !in id && forall i :: 0 <= i < |s.jobs| ==> s.jobs[i].id != id
  }

  function Do(cfg: Settings, s: Sys, a: Action): Sys {
    match a
    case Begin(tenant, session, id, now, state) =>
      if FreshID(s, id) then s.(jobs := s.jobs + [Job(tenant, session, id, now, state, Begun)]) else s
    case Advance(i) =>
      if i >= |s.jobs| then s
      else
        var j := s.jobs[i];
        match j.stage
        case Begun =>
          s.(strings := s.strings[StateKey(cfg, j.tenant, j.session) := cfg.encodeState(j.state)],
             jobs := s.jobs[i := j.(stage := StateSet)])
        case StateSet =>
          s.(strings := s.strings[DataKey(cfg, j.id) := cfg.encodeState(j.state)],
             jobs := s.jobs[i := j.(stage := DataSet)])
        case DataSet =>
          s.(zsets := s.zsets[KeyOf(cfg, j) := Added(IndexAt(s, KeyOf(cfg, j)), EntryOf(cfg, j))],
             added := s.added + [(KeyOf(cfg, j), EntryOf(cfg, j))],
             jobs := s.jobs[i := j.(stage := Indexed)])
        case Indexed =>
          s.(zsets := s.zsets[KeyOf(cfg, j) := RemoveRange(IndexAt(s, KeyOf(cfg, j)), 0, -cfg.maxCheckpoints - 1)],
             jobs := s.jobs[i := j.(stage := Pruned)])
        case Pruned => s
  }

  function Run(cfg: Settings, actions: seq<Action>): Sys {
    if actions == [] then EMPTY_SYS else Do(cfg, Run(cfg, actions[..|actions| - 1]), actions[|actions| - 1])
  }

  // ---- what the index should hold ----

  /** Everything ever added under `key`, in rank order. */
  function All(added: seq<(string, Entry)>, key: string): seq<Entry> {
    if added == [] then []
    else
      var rest := All(added[..|added| - 1], key);
      if added[|added| - 1].0 == key then Insert(rest, added[|added| - 1].1) else rest
  }

  function PendingAt(cfg: Settings, j: Job, key: string): nat {
    if j.stage == Indexed && KeyOf(cfg, j) == key then 1 else 0
  }

  /** Prunes of `key` still to come. */
  function Pending(cfg: Settings, jobs: seq<Job>, key: string): nat {
    if jobs == [] then 0 else Pending(cfg, jobs[..|jobs| - 1], key) + PendingAt(cfg, jobs[|jobs| - 1], key)
  }

  lemma {:induction false} PendingUpdate(cfg: Settings, jobs: seq<Job>, i: nat, j: Job, key: string)
    requires i < |jobs|
    ensures Pending(cfg, jobs[i := j], key) + PendingAt(cfg, jobs[i], key)
         == Pending(cfg, jobs, key) + PendingAt(cfg, j, key)
  {
    var n := |jobs| - 1;
    if i < n {
      PendingUpdate(cfg, jobs[..n], i, j, key);
      assert jobs[i := j][..n] == jobs[..n][i := j];
    } else {
      assert jobs[i := j][..n] == jobs[..n];
    }
  }

  // ---- invariants ----

  /** Saves have distinct, colon-free IDs. */
  ghost predicate DistinctJobs(s: Sys) {
    && (forall i :: 0 <= i < |s.jobs| ==> ':' !in s.jobs[i].id)
    && (forall i, j :: 0 <= i < j < |s.jobs| ==> s.jobs[i].id != s.jobs[j].id)
  }

  predicate HasIndexed(j: Job) {
    j.stage == Indexed || j.stage == Pruned
  }

  /** Some Save that got as far as indexing put entry `e` under `key`. */
  ghost predicate Explained(cfg: Settings, s: Sys, key: string, e: Entry) {
    exists i :: 0 <= i < |s.jobs| && HasIndexed(s.jobs[i]) && KeyOf(cfg, s.jobs[i]) == key && EntryOf(cfg, s.jobs[i]) == e
  }

  ghost predicate AllExplained(cfg: Settings, s: Sys) {
    && (forall k :: 0 <= k < |s.added| ==> Explained(cfg, s, s.added[k].0, s.added[k].1))
    && (forall key, r :: 0 <= r < |IndexAt(s, key)| ==> Explained(cfg, s, key, IndexAt(s, key)[r]))
  }

  /** Checkpoint data is in place before the entry is. */
  ghost predicate DataInPlace(cfg: Settings, s: Sys) {
    forall i :: 0 <= i < |s.jobs| && (s.jobs[i].stage == DataSet || HasIndexed(s.jobs[i])) ==>
      DataKey(cfg, s.jobs[i].id) in s.strings && s.strings[DataKey(cfg, s.jobs[i].id)] == cfg.encodeState(s.jobs[i].state)
  }

  /** The index agrees with everything ever added on the top k, and exceeds k by no more entries than prunes
      are pending. */
  ghost predicate TopOk(cfg: Settings, s: Sys, key: string) {
    var k := cfg.maxCheckpoints;
    k >= 1 ==>
      && Last(IndexAt(s, key), k) == Last(All(s.added, key), k)
      && |IndexAt(s, key)| <= k + Pending(cfg, s.jobs, key)
  }

  /** This metadata survives its encoding. */
  predicate Readable(cfg: Settings, m: Meta) {
    cfg.decodeMeta(cfg.encodeMeta(m)) == Some(m)
  }

  /** The metadata of every save among these actions survives its encoding. */
  ghost predicate ReadableSaves(cfg: Settings, actions: seq<Action>) {
    forall k :: 0 <= k < |actions| && actions[k].Begin? ==> Readable(cfg, Meta(actions[k].id, actions[k].session, actions[k].now))
  }

  ghost predicate ReadableJobs(cfg: Settings, s: Sys) {
    forall i :: 0 <= i < |s.jobs| ==> Readable(cfg, MetaOf(s.jobs[i]))
  }

  ghost predicate Inv(cfg: Settings, s: Sys) {
    && DistinctJobs(s) && ReadableJobs(cfg, s) && AllExplained(cfg, s) && DataInPlace(cfg, s)
    && forall key :: TopOk(cfg, s, key)
  }

  // ---- keys ----

  function Colons(s: string): nat {
    if s == [] then 0 else Colons(s[..|s| - 1]) + if s[|s| - 1] == ':' then 1 else 0
  }

  lemma {:induction false} ColonsConcat(a: string, b: string)
    ensures Colons(a + b) == Colons(a) + Colons(b)
  {
    if b == [] {
      assert a + b == a;
    } else {
      ColonsConcat(a, b[..|b| - 1]);
      assert (a + b)[..|a + b| - 1] == a + b[..|b| - 1];
    }
  }

  lemma {:induction false} NoColons(s: string)
    requires ':' !in s
    ensures Colons(s) == 0
  {
    if s != [] {
      NoColons(s[..|s| - 1]);
    }
  }

  lemma ColonsOne(s: string)
    requires s == ":"
    ensures Colons(s) == 1
  {
    assert s[..0] == [];
  }

  lemma StateKeyColons(cfg: Settings, tenant: string, session: string)
    ensures Colons(StateKey(cfg, tenant, session)) == Colons(cfg.prefix) + Colons(tenant) + Colons(session) + 3
  {
    var p := cfg.prefix;
    ColonsConcat(p + ":" + tenant + ":" + session, ":state");
    ColonsConcat(p + ":" + tenant + ":", session);
    ColonsConcat(p + ":" + tenant, ":");
    ColonsConcat(p + ":", tenant);
    ColonsConcat(p, ":");
    ColonsOne(":");
    assert ":state" == ":" + "state";
    ColonsConcat(":", "state");
    NoColons("state");
  }

  lemma DataKeyColons(cfg: Settings, id: string)
    requires ':' !in id
    ensures Colons(DataKey(cfg, id)) == Colons(cfg.prefix) + 2
  {
    ColonsConcat(cfg.prefix + ":ckpt:", id);
    ColonsConcat(cfg.prefix, ":ckpt:");
    assert ":ckpt:" == (":" + "ckpt") + ":";
    ColonsConcat(":" + "ckpt", ":");
    ColonsConcat(":", "ckpt");
    ColonsOne(":");
    NoColons("ckpt");
    NoColons(id);
  }

  /** A state snapshot never overwrites checkpoint data, whatever the tenant and session are called. */
  lemma KeysApart(cfg: Settings, tenant: string, session: string, id: string)
    requires ':' !in id
    ensures StateKey(cfg, tenant, session) != DataKey(cfg, id)
  {
    StateKeyColons(cfg, tenant, session);
    DataKeyColons(cfg, id);
  }

  /** Two sessions share their index exactly when tenant and session, joined by a colon, read the same; which
      tenants without a colon exclude. */
  lemma SharedIndexIff(cfg: Settings, tenant: string, session: string, tenant1: string, session1: string)
    ensures IndexKey(cfg, tenant, session) == IndexKey(cfg, tenant1, session1)
       <==> tenant + ":" + session == tenant1 + ":" + session1
    ensures ':' !in tenant && ':' !in tenant1 && tenant + ":" + session == tenant1 + ":" + session1 ==>
              tenant == tenant1 && session == session1
  {
    var a, b := tenant + ":" + session, tenant1 + ":" + session1;
    Middle(cfg.prefix + ":", a, ":ckpts");
    Middle(cfg.prefix + ":", b, ":ckpts");
    assert IndexKey(cfg, tenant, session) == cfg.prefix + ":" + a + ":ckpts";
    assert IndexKey(cfg, tenant1, session1) == cfg.prefix + ":" + b + ":ckpts";
    if ':' !in tenant && ':' !in tenant1 && a == b {
      FirstColon(tenant, session, tenant1, session1);
    }
  }

  lemma Middle(p: string, a: string, q: string)
    ensures |p + a + q| == |p| + |a| + |q| && (p + a + q)[|p|..|p + a + q| - |q|] == a
  {
  }

  lemma FirstColon(a: string, x: string, b: string, y: string)
    requires ':' !in a && ':' !in b && a + ":" + x == b + ":" + y
    ensures a == b && x == y
  {
    var s := a + ":" + x;
    assert s[|a|] == ':' && s[|b|] == ':';
    assert forall i :: 0 <= i < |a| ==> s[i] == a[i] && s[i] != ':';
    assert forall i :: 0 <= i < |b| ==> s[i] == b[i] && s[i] != ':';
    assert |a| == |b|;
    assert s[..|a|] == a && s[..|b|] == b && s[|a| + 1..] == x && s[|b| + 1..] == y;
  }

  lemma DataKeyInjective(cfg: Settings, a: string, b: string)
    requires DataKey(cfg, a) == DataKey(cfg, b)
    ensures a == b
  {
    assert a == DataKey(cfg, a)[|cfg.prefix + ":ckpt:"|..];
    assert b == DataKey(cfg, b)[|cfg.prefix + ":ckpt:"|..];
  }

  // ---- every step keeps the invariants ----

  /** Jobs are only appended and only move forward. */
  ghost predicate Evolves(a: seq<Job>, b: seq<Job>) {
    && |a| <= |b|
    && forall i :: 0 <= i < |a| ==> b[i] == a[i].(stage := b[i].stage) && (HasIndexed(a[i]) ==> HasIndexed(b[i]))
  }

  lemma ExplainedKept(cfg: Settings, s: Sys, t: Sys, key: string, e: Entry)
    requires Evolves(s.jobs, t.jobs) && Explained(cfg, s, key, e)
    ensures Explained(cfg, t, key, e)
  {
    var i :| 0 <= i < |s.jobs| && HasIndexed(s.jobs[i]) && KeyOf(cfg, s.jobs[i]) == key && EntryOf(cfg, s.jobs[i]) == e;
    assert HasIndexed(t.jobs[i]) && KeyOf(cfg, t.jobs[i]) == key && EntryOf(cfg, t.jobs[i]) == e;
  }

  lemma AllExplainedKept(cfg: Settings, s: Sys, t: Sys)
    requires AllExplained(cfg, s) && Evolves(s.jobs, t.jobs)
    requires t.added == s.added && t.zsets == s.zsets
    ensures AllExplained(cfg, t)
  {
    forall k | 0 <= k < |t.added| ensures Explained(cfg, t, t.added[k].0, t.added[k].1) {
      ExplainedKept(cfg, s, t, s.added[k].0, s.added[k].1);
    }
    forall key, r | 0 <= r < |IndexAt(t, key)| ensures Explained(cfg, t, key, IndexAt(t, key)[r]) {
      ExplainedKept(cfg, s, t, key, IndexAt(s, key)[r]);
    }
  }

  /** Steps that touch neither index nor pending prunes keep the top-k relation. */
  lemma TopOkKept(cfg: Settings, s: Sys, t: Sys, i: nat)
    requires forall key :: TopOk(cfg, s, key)
    requires i < |s.jobs| == |t.jobs| && t.jobs == s.jobs[i := t.jobs[i]]
    requires t.added == s.added && t.zsets == s.zsets
    requires s.jobs[i].stage != Indexed && t.jobs[i].stage != Indexed
    ensures forall key :: TopOk(cfg, t, key)
  {
    forall key ensures TopOk(cfg, t, key) {
      assert TopOk(cfg, s, key);
      PendingUpdate(cfg, s.jobs, i, t.jobs[i], key);
    }
  }

  lemma BeginKeepsInv(cfg: Settings, s: Sys, a: Action)
    requires Inv(cfg, s) && a.Begin? && Readable(cfg, Meta(a.id, a.session, a.now))
    ensures Inv(cfg, Do(cfg, s, a))
  {
    if FreshID(s, a.id) {
      var t := Do(cfg, s, a);
      AllExplainedKept(cfg, s, t);
      forall key ensures TopOk(cfg, t, key) {
        assert TopOk(cfg, s, key);
        PendingBegun(cfg, s.jobs, t.jobs[|s.jobs|], key);
      }
    }
  }

  lemma PendingBegun(cfg: Settings, jobs: seq<Job>, j: Job, key: string)
    requires j.stage == Begun
    ensures Pending(cfg, jobs + [j], key) == Pending(cfg, jobs, key)
  {
    assert (jobs + [j])[..|jobs|] == jobs;
  }

  lemma WriteKeepsInv(cfg: Settings, s: Sys, i: nat)
    requires Inv(cfg, s) && i < |s.jobs| && (s.jobs[i].stage == Begun || s.jobs[i].stage == StateSet)
    ensures Inv(cfg, Do(cfg, s, Advance(i)))
  {
    var t := Do(cfg, s, Advance(i));
    var j := s.jobs[i];
    AllExplainedKept(cfg, s, t);
    TopOkKept(cfg, s, t, i);
    forall n | 0 <= n < |t.jobs| && (t.jobs[n].stage == DataSet || HasIndexed(t.jobs[n]))
      ensures DataKey(cfg, t.jobs[n].id) in t.strings
              && t.strings[DataKey(cfg, t.jobs[n].id)] == cfg.encodeState(t.jobs[n].state)
    {
      if j.stage == Begun {
        KeysApart(cfg, j.tenant, j.session, t.jobs[n].id);
      } else if n != i && DataKey(cfg, t.jobs[n].id) == DataKey(cfg, j.id) {
        DataKeyInjective(cfg, t.jobs[n].id, j.id);
      }
    }
  }

  /** A Save about to index has a member unlike that of any entry already explained, IDs being fresh. */
  lemma OtherMember(cfg: Settings, s: Sys, i: nat, key: string, e: Entry)
    requires DistinctJobs(s) && ReadableJobs(cfg, s) && Explained(cfg, s, key, e)
    requires i < |s.jobs| && s.jobs[i].stage == DataSet
    ensures e.member != EntryOf(cfg, s.jobs[i]).member
  {
    var n :| 0 <= n < |s.jobs| && HasIndexed(s.jobs[n]) && KeyOf(cfg, s.jobs[n]) == key && EntryOf(cfg, s.jobs[n]) == e;
    assert Readable(cfg, MetaOf(s.jobs[n])) && Readable(cfg, MetaOf(s.jobs[i]));
    assert s.jobs[n].id != s.jobs[i].id;
  }

  /** The entry a Save adds is new to the index. */
  lemma EntryIsNew(cfg: Settings, s: Sys, i: nat, key: string)
    requires DistinctJobs(s) && ReadableJobs(cfg, s) && AllExplained(cfg, s)
    requires i < |s.jobs| && s.jobs[i].stage == DataSet
    ensures !HasMember(IndexAt(s, key), EntryOf(cfg, s.jobs[i]).member)
  {
    forall r | 0 <= r < |IndexAt(s, key)| ensures IndexAt(s, key)[r].member != EntryOf(cfg, s.jobs[i]).member {
      OtherMember(cfg, s, i, key, IndexAt(s, key)[r]);
    }
  }

  lemma InsertedFrom(z: seq<Entry>, e: Entry, r: nat)
    requires r < |z| + 1
    ensures Insert(z, e)[r] == e || Insert(z, e)[r] in z
  {
    InsertElements(z, e);
    assert Insert(z, e)[r] in multiset(Insert(z, e));
  }

  lemma IndexKeepsExplained(cfg: Settings, s: Sys, i: nat)
    requires Inv(cfg, s) && i < |s.jobs| && s.jobs[i].stage == DataSet
    ensures AllExplained(cfg, Do(cfg, s, Advance(i)))
  {
    var t := Do(cfg, s, Advance(i));
    var j := s.jobs[i];
    var k, e := KeyOf(cfg, j), EntryOf(cfg, j);
    assert Explained(cfg, t, k, e) by {
      assert HasIndexed(t.jobs[i]) && KeyOf(cfg, t.jobs[i]) == k && EntryOf(cfg, t.jobs[i]) == e;
    }
    EntryIsNew(cfg, s, i, k);
    WithoutAbsent(IndexAt(s, k), e.member);
    forall n | 0 <= n < |t.added| ensures Explained(cfg, t, t.added[n].0, t.added[n].1) {
      if n < |s.added| {
        ExplainedKept(cfg, s, t, s.added[n].0, s.added[n].1);
      }
    }
    forall key, r | 0 <= r < |IndexAt(t, key)| ensures Explained(cfg, t, key, IndexAt(t, key)[r]) {
      var x := IndexAt(t, key)[r];
      if key == k {
        InsertedFrom(IndexAt(s, k), e, r);
      }
      if key != k || x != e {
        assert x in IndexAt(s, key);
        ExplainedKept(cfg, s, t, key, x);
      }
    }
  }

  lemma IndexKeepsTop(cfg: Settings, s: Sys, i: nat, key: string)
    requires Inv(cfg, s) && i < |s.jobs| && s.jobs[i].stage == DataSet
    ensures TopOk(cfg, Do(cfg, s, Advance(i)), key)
  {
    assert TopOk(cfg, s, key);
    var t := Do(cfg, s, Advance(i));
    var j := s.jobs[i];
    var k, e := KeyOf(cfg, j), EntryOf(cfg, j);
    PendingUpdate(cfg, s.jobs, i, t.jobs[i], key);
    assert t.added[..|t.added| - 1] == s.added;
    if key == k && cfg.maxCheckpoints >= 1 {
      EntryIsNew(cfg, s, i, k);
      WithoutAbsent(IndexAt(s, k), e.member);
      InsertTop(IndexAt(s, k), e, cfg.maxCheckpoints);
      InsertTop(All(s.added, k), e, cfg.maxCheckpoints);
    }
  }

  lemma IndexKeepsInv(cfg: Settings, s: Sys, i: nat)
    requires Inv(cfg, s) && i < |s.jobs| && s.jobs[i].stage == DataSet
    ensures Inv(cfg, Do(cfg, s, Advance(i)))
  {
    IndexKeepsExplained(cfg, s, i);
    forall key ensures TopOk(cfg, Do(cfg, s, Advance(i)), key) {
      IndexKeepsTop(cfg, s, i, key);
    }
  }

  lemma PruneKeepsExplained(cfg: Settings, s: Sys, i: nat)
    requires AllExplained(cfg, s) && i < |s.jobs| && s.jobs[i].stage == Indexed
    ensures AllExplained(cfg, Do(cfg, s, Advance(i)))
  {
    var t := Do(cfg, s, Advance(i));
    forall n | 0 <= n < |t.added| ensures Explained(cfg, t, t.added[n].0, t.added[n].1) {
      ExplainedKept(cfg, s, t, s.added[n].0, s.added[n].1);
    }
    forall key, r | 0 <= r < |IndexAt(t, key)| ensures Explained(cfg, t, key, IndexAt(t, key)[r]) {
      assert IndexAt(t, key)[r] in IndexAt(s, key);
      ExplainedKept(cfg, s, t, key, IndexAt(t, key)[r]);
    }
  }

  /** A prune leaves its index at exactly the top k of everything ever added. */
  lemma PruneIsExact(cfg: Settings, s: Sys, i: nat)
    requires Inv(cfg, s) && i < |s.jobs| && s.jobs[i].stage == Indexed && cfg.maxCheckpoints >= 1
    ensures var k := KeyOf(cfg, s.jobs[i]);
            IndexAt(Do(cfg, s, Advance(i)), k) == Last(All(s.added, k), cfg.maxCheckpoints)
  {
    var k := KeyOf(cfg, s.jobs[i]);
    assert TopOk(cfg, s, k);
    NegativeIndicesKeepLast(IndexAt(s, k), cfg.maxCheckpoints);
  }

  lemma PruneKeepsTop(cfg: Settings, s: Sys, i: nat, key: string)
    requires Inv(cfg, s) && i < |s.jobs| && s.jobs[i].stage == Indexed
    ensures TopOk(cfg, Do(cfg, s, Advance(i)), key)
  {
    assert TopOk(cfg, s, key);
    PendingUpdate(cfg, s.jobs, i, Do(cfg, s, Advance(i)).jobs[i], key);
    if cfg.maxCheckpoints >= 1 && key == KeyOf(cfg, s.jobs[i]) {
      PruneIsExact(cfg, s, i);
      LastLast(All(s.added, key), cfg.maxCheckpoints, cfg.maxCheckpoints);
    }
  }

  lemma PruneKeepsInv(cfg: Settings, s: Sys, i: nat)
    requires Inv(cfg, s) && i < |s.jobs| && s.jobs[i].stage == Indexed
    ensures Inv(cfg, Do(cfg, s, Advance(i)))
  {
    var t := Do(cfg, s, Advance(i));
    PruneKeepsExplained(cfg, s, i);
    forall key ensures TopOk(cfg, t, key) {
      PruneKeepsTop(cfg, s, i, key);
    }
  }

  lemma {:induction false} InvAlways(cfg: Settings, actions: seq<Action>)
    requires ReadableSaves(cfg, actions)
    ensures Inv(cfg, Run(cfg, actions))
  {
    if actions != [] {
      InvAlways(cfg, actions[..|actions| - 1]);
      var s, a := Run(cfg, actions[..|actions| - 1]), actions[|actions| - 1];
      if a.Begin? {
        BeginKeepsInv(cfg, s, a);
      } else if a.i < |s.jobs| {
        match s.jobs[a.i].stage {
          case Begun => WriteKeepsInv(cfg, s, a.i);
          case StateSet => WriteKeepsInv(cfg, s, a.i);
          case DataSet => IndexKeepsInv(cfg, s, a.i);
          case Indexed => PruneKeepsInv(cfg, s, a.i);
          case Pruned =>
        }
      }
    }
  }

  // ---- the promises ----

  /** The entries added under `key`, in the order they arrived. */
  function AddedUnder(added: seq<(string, Entry)>, key: string): seq<Entry> {
    if added == [] then []
    else AddedUnder(added[..|added| - 1], key) + if added[|added| - 1].0 == key then [added[|added| - 1].1] else []
  }

  lemma {:induction false} AllHoldsAdded(added: seq<(string, Entry)>, key: string)
    ensures multiset(All(added, key)) == multiset(AddedUnder(added, key))
    ensures forall x :: x in All(added, key) ==> (key, x) in added
  {
    if added != [] {
      var n := |added| - 1;
      AllHoldsAdded(added[..n], key);
      if added[n].0 == key {
        InsertElements(All(added[..n], key), added[n].1);
        forall x | x in All(added, key) ensures (key, x) in added {
          assert x in multiset(All(added, key));
          assert x == added[n].1 || x in All(added[..n], key);
        }
      }
    }
  }

  lemma {:induction false} AllSorted(cfg: Settings, actions: seq<Action>, key: string)
    requires ReadableSaves(cfg, actions)
    ensures Sorted(All(Run(cfg, actions).added, key))
  {
    if actions != [] {
      var s, a := Run(cfg, actions[..|actions| - 1]), actions[|actions| - 1];
      AllSorted(cfg, actions[..|actions| - 1], key);
      InvAlways(cfg, actions[..|actions| - 1]);
      if a.Advance? && a.i < |s.jobs| && s.jobs[a.i].stage == DataSet && KeyOf(cfg, s.jobs[a.i]) == key {
        NewToAll(cfg, s, a.i, key);
        assert Do(cfg, s, a).added[..|s.added|] == s.added;
        InsertSorted(All(s.added, key), EntryOf(cfg, s.jobs[a.i]));
      } else if Do(cfg, s, a).added != s.added {
        assert Do(cfg, s, a).added[..|s.added|] == s.added;
      }
    }
  }

  lemma NewToAll(cfg: Settings, s: Sys, i: nat, key: string)
    requires Inv(cfg, s) && i < |s.jobs| && s.jobs[i].stage == DataSet
    ensures !HasMember(All(s.added, key), EntryOf(cfg, s.jobs[i]).member)
  {
    AllHoldsAdded(s.added, key);
    forall r | 0 <= r < |All(s.added, key)| ensures All(s.added, key)[r].member != EntryOf(cfg, s.jobs[i]).member {
      var e := All(s.added, key)[r];
      assert (key, e) in s.added;
      var k :| 0 <= k < |s.added| && s.added[k] == (key, e);
      assert Explained(cfg, s, s.added[k].0, s.added[k].1);
      OtherMember(cfg, s, i, key, e);
    }
  }

  lemma {:induction false} IndexSorted(cfg: Settings, actions: seq<Action>, key: string)
    requires ReadableSaves(cfg, actions) && cfg.maxCheckpoints >= 1
    ensures Sorted(IndexAt(Run(cfg, actions), key))
  {
    if actions != [] {
      var s, a := Run(cfg, actions[..|actions| - 1]), actions[|actions| - 1];
      IndexSorted(cfg, actions[..|actions| - 1], key);
      InvAlways(cfg, actions[..|actions| - 1]);
      if a.Advance? && a.i < |s.jobs| {
        StepKeepsSorted(cfg, s, a.i, key);
      }
    }
  }

  lemma StepKeepsSorted(cfg: Settings, s: Sys, i: nat, key: string)
    requires cfg.maxCheckpoints >= 1 && Inv(cfg, s) && i < |s.jobs|
    requires Sorted(IndexAt(s, key))
    ensures Sorted(IndexAt(Do(cfg, s, Advance(i)), key))
  {
    if KeyOf(cfg, s.jobs[i]) == key && s.jobs[i].stage == DataSet {
      AddKeepsSorted(cfg, s, i);
    } else if KeyOf(cfg, s.jobs[i]) == key && s.jobs[i].stage == Indexed {
      PruneKeepsSorted(cfg, s, i);
    } else {
      OtherIndexKept(cfg, s, i, key);
    }
  }

  lemma OtherIndexKept(cfg: Settings, s: Sys, i: nat, key: string)
    requires i < |s.jobs|
    requires KeyOf(cfg, s.jobs[i]) != key || (s.jobs[i].stage != DataSet && s.jobs[i].stage != Indexed)
    ensures IndexAt(Do(cfg, s, Advance(i)), key) == IndexAt(s, key)
  {
  }

  lemma SortedLast(z: seq<Entry>, k: nat)
    requires Sorted(z)
    ensures Sorted(Last(z, k))
  {
    var t, d := Last(z, k), |z| - |Last(z, k)|;
    forall i, j | 0 <= i < j < |t| ensures Before(t[i], t[j]) {
      assert t[i] == z[d + i] && t[j] == z[d + j];
    }
  }

  lemma PruneKeepsSorted(cfg: Settings, s: Sys, i: nat)
    requires i < |s.jobs| && s.jobs[i].stage == Indexed && cfg.maxCheckpoints >= 1
    requires Sorted(IndexAt(s, KeyOf(cfg, s.jobs[i])))
    ensures Sorted(IndexAt(Do(cfg, s, Advance(i)), KeyOf(cfg, s.jobs[i])))
  {
    var z := IndexAt(s, KeyOf(cfg, s.jobs[i]));
    NegativeIndicesKeepLast(z, cfg.maxCheckpoints);
    assert IndexAt(Do(cfg, s, Advance(i)), KeyOf(cfg, s.jobs[i])) == Last(z, cfg.maxCheckpoints);
    SortedLast(z, cfg.maxCheckpoints);
  }

  lemma AddKeepsSorted(cfg: Settings, s: Sys, i: nat)
    requires Inv(cfg, s) && i < |s.jobs| && s.jobs[i].stage == DataSet
    requires Sorted(IndexAt(s, KeyOf(cfg, s.jobs[i])))
    ensures Sorted(IndexAt(Do(cfg, s, Advance(i)), KeyOf(cfg, s.jobs[i])))
  {
    var z, e := IndexAt(s, KeyOf(cfg, s.jobs[i])), EntryOf(cfg, s.jobs[i]);
    EntryIsNew(cfg, s, i, KeyOf(cfg, s.jobs[i]));
    WithoutAbsent(z, e.member);
    InsertSorted(z, e);
    assert IndexAt(Do(cfg, s, Advance(i)), KeyOf(cfg, s.jobs[i])) == Insert(z, e);
  }

  /** `top` holds the k greatest entries of `entries`, all of them if there are fewer. */
  ghost predicate IsTop(top: seq<Entry>, entries: seq<Entry>, k: nat) {
    && Sorted(top) && multiset(top) <= multiset(entries)
    && |top| == (if |entries| < k then |entries| else k)
    && forall x, y :: x in multiset(entries) - multiset(top) && y in top ==> Before(x, y)
  }

  lemma DroppedBeforeLast(z: seq<Entry>, n: nat)
    requires Sorted(z) && n <= |z|
    ensures forall x, y :: x in multiset(z[..n]) && y in z[n..] ==> Before(x, y)
  {
    forall x, y | x in multiset(z[..n]) && y in z[n..] ensures Before(x, y) {
      var i :| 0 <= i < n && z[..n][i] == x;
      var j :| 0 <= j < |z| - n && z[n..][j] == y;
      assert z[i] == x && z[n + j] == y;
    }
  }

  lemma LastIsTop(z: seq<Entry>, entries: seq<Entry>, k: nat)
    requires Sorted(z) && multiset(z) == multiset(entries)
    ensures IsTop(Last(z, k), entries, k)
  {
    SameLength(z, entries);
    SortedLast(z, k);
    var n := |z| - |Last(z, k)|;
    assert z[n..] == Last(z, k);
    SplitElements(z, n);
    DroppedBeforeLast(z, n);
  }

  lemma SameLength(a: seq<Entry>, b: seq<Entry>)
    requires multiset(a) == multiset(b)
    ensures |a| == |b|
  {
    assert |a| == |multiset(a)| == |multiset(b)|;
  }

  lemma SplitElements(z: seq<Entry>, n: nat)
    requires n <= |z|
    ensures multiset(z[n..]) <= multiset(z) && multiset(z) - multiset(z[n..]) == multiset(z[..n])
  {
    assert z == z[..n] + z[n..];
  }

  /** Async pruning is an exact streaming top-k. For every interleaving of saves and prunes: the top
      maxCheckpoints entries of a session's index are the top maxCheckpoints of everything ever saved for it,
      and whenever no prune of it is pending the index is exactly that. */
  lemma StreamingTopK(cfg: Settings, actions: seq<Action>, key: string)
    requires ReadableSaves(cfg, actions) && cfg.maxCheckpoints >= 1
    ensures var s := Run(cfg, actions);
            var saved := AddedUnder(s.added, key);
            && IsTop(Last(IndexAt(s, key), cfg.maxCheckpoints), saved, cfg.maxCheckpoints)
            && (Pending(cfg, s.jobs, key) == 0 ==> IsTop(IndexAt(s, key), saved, cfg.maxCheckpoints))
  {
    var s := Run(cfg, actions);
    InvAlways(cfg, actions);
    assert TopOk(cfg, s, key);
    AllSorted(cfg, actions, key);
    AllHoldsAdded(s.added, key);
    LastIsTop(All(s.added, key), AddedUnder(s.added, key), cfg.maxCheckpoints);
  }

  /** LoadCheckpoint. */
  function Loaded(cfg: Settings, s: Sys, id: string): Option<AgentState> {
    if DataKey(cfg, id) in s.strings then cfg.decodeState(s.strings[DataKey(cfg, id)]) else None
  }

  /** No dangling checkpoints: at every step of every interleaving, each indexed entry decodes to the
      metadata of a save under that very key, and its checkpoint ID loads what the encoding of the state saved
      under it decodes to, which is that state if it survives its encoding. */
  lemma NoDanglingCheckpoints(cfg: Settings, actions: seq<Action>, key: string, r: nat)
    requires ReadableSaves(cfg, actions)
    requires r < |IndexAt(Run(cfg, actions), key)|
    ensures var s := Run(cfg, actions);
            exists i :: 0 <= i < |s.jobs| && KeyOf(cfg, s.jobs[i]) == key && IndexAt(s, key)[r] == EntryOf(cfg, s.jobs[i])
                        && cfg.decodeMeta(IndexAt(s, key)[r].member) == Some(MetaOf(s.jobs[i]))
                        && DataKey(cfg, s.jobs[i].id) in s.strings
                        && Loaded(cfg, s, s.jobs[i].id) == cfg.decodeState(cfg.encodeState(s.jobs[i].state))
  {
    InvAlways(cfg, actions);
    var s := Run(cfg, actions);
    var e := IndexAt(s, key)[r];
    assert Explained(cfg, s, key, e);
    var i :| 0 <= i < |s.jobs| && HasIndexed(s.jobs[i]) && KeyOf(cfg, s.jobs[i]) == key && EntryOf(cfg, s.jobs[i]) == e;
    assert Readable(cfg, MetaOf(s.jobs[i]));
  }
}
