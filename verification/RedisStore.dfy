/** RedisMemoryStore (storage/redis_store.go) as the object the source has, over a Redis client, one call at
    a time. RedisCheckpoints and RedisMessages say what its calls do when they interleave. */
module RedisStore {
  import opened Core
  import opened Redis
  import opened RedisCheckpoints
  import M = RedisMessages

  datatype Options = Options(keyPrefix: string, maxCheckpoints: int, maxMessages: int)

  const DEFAULTS := Options("fluxgraph", 50, 200)

  /** Zero-valued options take their defaults; a negative limit stays as it is. */
  function WithDefaults(o: Options): Options {
    Options(if o.keyPrefix == "" then DEFAULTS.keyPrefix else o.keyPrefix,
            if o.maxCheckpoints == 0 then DEFAULTS.maxCheckpoints else o.maxCheckpoints,
            if o.maxMessages == 0 then DEFAULTS.maxMessages else o.maxMessages)
  }

  /** The limits the interleaving results need hold exactly for non-negative options. */
  lemma DefaultsGiveWindows(o: Options)
    ensures WithDefaults(o).maxCheckpoints >= 1 <==> o.maxCheckpoints >= 0
    ensures WithDefaults(o).maxMessages >= 1 <==> o.maxMessages >= 0
  {
  }

  function MessagesKey(cfg: Settings, tenant: string, session: string): string {
    cfg.prefix + ":" + tenant + ":" + session + ":msgs"
  }

  /** Two sessions share their message list exactly when tenant and session, joined by a colon, read the same;
      which tenants without a colon exclude. */
  lemma SharedListIff(cfg: Settings, tenant: string, session: string, tenant1: string, session1: string)
    ensures MessagesKey(cfg, tenant, session) == MessagesKey(cfg, tenant1, session1)
       <==> tenant + ":" + session == tenant1 + ":" + session1
    ensures ':' !in tenant && ':' !in tenant1 && tenant + ":" + session == tenant1 + ":" + session1 ==>
              tenant == tenant1 && session == session1
  {
    var a, b := tenant + ":" + session, tenant1 + ":" + session1;
    Middle(cfg.prefix + ":", a, ":msgs");
    Middle(cfg.prefix + ":", b, ":msgs");
    assert MessagesKey(cfg, tenant, session) == cfg.prefix + ":" + a + ":msgs";
    assert MessagesKey(cfg, tenant1, session1) == cfg.prefix + ":" + b + ":msgs";
    if ':' !in tenant && ':' !in tenant1 && a == b {
      FirstColon(tenant, session, tenant1, session1);
    }
  }

  /** A session's state, index and message list are three keys, whatever any two sessions are called. */
  lemma KindsApart(cfg: Settings, tenant: string, session: string, tenant1: string, session1: string)
    ensures MessagesKey(cfg, tenant, session) != StateKey(cfg, tenant1, session1)
    ensures MessagesKey(cfg, tenant, session) != IndexKey(cfg, tenant1, session1)
    ensures StateKey(cfg, tenant, session) != IndexKey(cfg, tenant1, session1)
  {
    var m, s, x := MessagesKey(cfg, tenant, session), StateKey(cfg, tenant1, session1), IndexKey(cfg, tenant1, session1);
    var s0 := StateKey(cfg, tenant, session);
    assert m[|m| - 2..] == "gs" && s[|s| - 2..] == "te" && x[|x| - 2..] == "ts" && s0[|s0| - 2..] == "te";
  }

  class RedisMemoryStore {
    const client: Client
    const cfg: Settings
    const maxMessages: int
    const marshals: AgentState -> bool
    const encodeMessage: Message -> Option<string>

    constructor (client: Client, o: Options, cfg: Settings, marshals: AgentState -> bool, encodeMessage: Message -> Option<string>)
      ensures this.client == client && this.marshals == marshals && this.encodeMessage == encodeMessage
      ensures this.cfg == cfg.(prefix := WithDefaults(o).keyPrefix, maxCheckpoints := WithDefaults(o).maxCheckpoints)
      ensures this.maxMessages == WithDefaults(o).maxMessages
      ensures o.keyPrefix == "" ==> this.cfg.prefix == "fluxgraph"
      ensures o.maxCheckpoints == 0 ==> this.cfg.maxCheckpoints == 50
      ensures o.maxMessages == 0 ==> this.maxMessages == 200
      ensures o.keyPrefix != "" ==> this.cfg.prefix == o.keyPrefix
      ensures o.maxCheckpoints != 0 ==> this.cfg.maxCheckpoints == o.maxCheckpoints
      ensures o.maxMessages != 0 ==> this.maxMessages == o.maxMessages
    {
      this.client, this.marshals, this.encodeMessage := client, marshals, encodeMessage;
      this.cfg := cfg.(prefix := WithDefaults(o).keyPrefix, maxCheckpoints := WithDefaults(o).maxCheckpoints);
      this.maxMessages := WithDefaults(o).maxMessages;
    }

    /** The three writes of a Save, or none if the state cannot be marshalled. The prune it leaves behind is a
        later call of PruneCheckpoints. */
    method Save(tenant: string, session: string, id: string, now: int, state: AgentState) returns (ok: bool)
      modifies client`strings, client`zsets
      ensures ok == marshals(state)
      ensures client.strings
           == if !ok then old(client.strings)
              else old(client.strings)[StateKey(cfg, tenant, session) := cfg.encodeState(state)]
                     [DataKey(cfg, id) := cfg.encodeState(state)]
      ensures client.zsets
           == if !ok then old(client.zsets)
              else old(client.zsets)[IndexKey(cfg, tenant, session) :=
                     Added(old(client.ZSetAt(IndexKey(cfg, tenant, session))),
                           Entry(Millis(now), cfg.encodeMeta(Meta(id, session, now))))]
    {
      if !marshals(state) {
        return false;
      }
      var data := cfg.encodeState(state);
      var meta := cfg.encodeMeta(Meta(id, session, now));
      client.Set(StateKey(cfg, tenant, session), data);
      client.Set(DataKey(cfg, id), data);
      client.ZAdd(IndexKey(cfg, tenant, session), Millis(now), meta);
      return true;
    }

    /** The session's index keeps its last maxCheckpoints entries; the other indices stay as they are. */
    method PruneCheckpoints(tenant: string, session: string)
      modifies client`zsets
      ensures var key := IndexKey(cfg, tenant, session);
              && (cfg.maxCheckpoints >= 1 ==> client.ZSetAt(key) == Last(old(client.ZSetAt(key)), cfg.maxCheckpoints))
              && client.ZSetAt(key) == RemoveRange(old(client.ZSetAt(key)), 0, -cfg.maxCheckpoints - 1)
              && forall k :: k != key ==> client.ZSetAt(k) == old(client.ZSetAt(k))
    {
      var key := IndexKey(cfg, tenant, session);
      if cfg.maxCheckpoints >= 1 {
        NegativeIndicesKeepLast(client.ZSetAt(key), cfg.maxCheckpoints);
      }
      client.ZRemRangeByRank(key, 0, -cfg.maxCheckpoints - 1);
    }

    method Load(tenant: string, session: string) returns (r: Option<AgentState>)
      ensures var key := StateKey(cfg, tenant, session);
              r == if key in client.strings then cfg.decodeState(client.strings[key]) else None
    {
      if StateKey(cfg, tenant, session) !in client.strings {
        return None;
      }
      return cfg.decodeState(client.strings[StateKey(cfg, tenant, session)]);
    }

    method LoadCheckpoint(id: string) returns (r: Option<AgentState>)
      ensures r == if DataKey(cfg, id) in client.strings then cfg.decodeState(client.strings[DataKey(cfg, id)]) else None
    {
      if DataKey(cfg, id) !in client.strings {
        return None;
      }
      return cfg.decodeState(client.strings[DataKey(cfg, id)]);
    }

    /** Entries that do not decode are skipped; the rest is reversed in place, so newest first. */
    method ListCheckpoints(tenant: string, session: string) returns (metas: array<Meta>)
      ensures fresh(metas)
      ensures metas[..] == Reversed(Decoded(cfg, client.ZSetAt(IndexKey(cfg, tenant, session))))
    {
      var key := IndexKey(cfg, tenant, session);
      var members := client.ZRange(key, 0, -1);
      ghost var z := client.ZSetAt(key);
      assert Range(z, 0, -1) == z;
      var found: seq<Meta> := [];
      for i := 0 to |members|
        invariant found == Decoded(cfg, z[..i])
      {
        assert z[..i + 1][..i] == z[..i];
        var m := cfg.decodeMeta(members[i]);
        if m.Some? {
          found := found + [m.value];
        }
      }
      assert z[..|members|] == z;
      metas := new Meta[|found|](i requires 0 <= i < |found| => found[i]);
      assert metas[..] == found;
      ReverseInPlace(metas);
    }

    /** Pushes the messages up to the first that cannot be encoded; unless there is such a one, the list is
        then trimmed to its last maxMessages. */
    method AppendMessages(tenant: string, session: string, messages: seq<Message>) returns (ok: bool)
      modifies client`lists
      ensures var key := MessagesKey(cfg, tenant, session);
              var pushed := old(client.ListAt(key)) + Encodable(encodeMessage, messages);
              && (ok <==> |Encodable(encodeMessage, messages)| == |messages|)
              && client.ListAt(key) == (if ok then Range(pushed, -maxMessages, -1) else pushed)
              && (ok && maxMessages >= 1 ==> client.ListAt(key) == Last(pushed, maxMessages))
              && forall k :: k != key ==> client.ListAt(k) == old(client.ListAt(k))
    {
      var key := MessagesKey(cfg, tenant, session);
      ghost var all := Encodable(encodeMessage, messages);
      for i := 0 to |messages|
        invariant i <= |all| && all[i..] == Encodable(encodeMessage, messages[i..])
        invariant client.ListAt(key) == old(client.ListAt(key)) + all[..i]
        invariant forall k :: k != key ==> client.ListAt(k) == old(client.ListAt(k))
      {
        var b := encodeMessage(messages[i]);
        assert messages[i..][0] == messages[i] && messages[i..][1..] == messages[i + 1..];
        if b == None {
          assert all == all[..i] + all[i..];
          return false;
        }
        client.RPush(key, b.value);
        assert all[i..][0] == b.value && all[i..][1..] == all[i + 1..];
        assert all[..i + 1] == all[..i] + [b.value];
      }
      assert all == all[..|messages|];
      if maxMessages >= 1 {
        NegativeIndicesKeepLast(client.ListAt(key), maxMessages);
      }
      client.LTrim(key, -maxMessages, -1);
      return true;
    }
  }

  /** The encodings of the messages before the first that has none. */
  function Encodable(encode: Message -> Option<string>, messages: seq<Message>): (r: seq<string>)
    ensures |r| <= |messages|
  {
    if messages == [] || encode(messages[0]) == None then []
    else [encode(messages[0]).value] + Encodable(encode, messages[1..])
  }

  function Decoded(cfg: Settings, z: seq<Entry>): seq<Meta> {
    if z == [] then []
    else
      var m := cfg.decodeMeta(z[|z| - 1].member);
      Decoded(cfg, z[..|z| - 1]) + if m.Some? then [m.value] else []
  }

  function Reversed<T>(s: seq<T>): (r: seq<T>)
    ensures |r| == |s|
  {
    seq(|s|, i requires 0 <= i < |s| => s[|s| - 1 - i])
  }

  method ReverseInPlace(a: array<Meta>)
    modifies a
    ensures a[..] == Reversed(old(a[..]))
  {
    var i, j := 0, a.Length - 1;
    while i < j
      invariant 0 <= i <= a.Length && j == a.Length - 1 - i && i <= j + 1
      invariant forall k :: 0 <= k < a.Length && (k < i || k > j) ==> a[k] == old(a[a.Length - 1 - k])
      invariant forall k :: i <= k <= j ==> a[k] == old(a[k])
    {
      a[i], a[j] := a[j], a[i];
      i, j := i + 1, j - 1;
    }
  }

  /** Every message before the first that cannot be encoded contributes its encoding. */
  lemma {:induction false} EncodableMeans(encode: Message -> Option<string>, messages: seq<Message>)
    ensures var r := Encodable(encode, messages);
            && (forall i :: 0 <= i < |r| ==> encode(messages[i]) == Some(r[i]))
            && (|r| < |messages| ==> encode(messages[|r|]) == None)
  {
    if messages != [] && encode(messages[0]).Some? {
      EncodableMeans(encode, messages[1..]);
      var r := Encodable(encode, messages);
      forall i | 0 <= i < |r| ensures encode(messages[i]) == Some(r[i]) {
        if i > 0 {
          assert r[i] == Encodable(encode, messages[1..])[i - 1] && messages[i] == messages[1..][i - 1];
        }
      }
    }
  }

  // ---- the calls above are the interleaved machines' steps, run without interruption ----

  /** A Save is the three writes of a job of module RedisCheckpoints. */
  lemma SaveIsItsSteps(cfg: Settings, s: Sys, tenant: string, session: string, id: string, now: int, state: AgentState)
    requires FreshID(s, id)
    ensures var n := |s.jobs|;
            var key := IndexKey(cfg, tenant, session);
            var began := Do(cfg, s, Begin(tenant, session, id, now, state));
            var t := Do(cfg, Do(cfg, Do(cfg, began, Advance(n)), Advance(n)), Advance(n));
            && t.strings == s.strings[StateKey(cfg, tenant, session) := cfg.encodeState(state)]
                              [DataKey(cfg, id) := cfg.encodeState(state)]
            && t.zsets == s.zsets[key := Added(IndexAt(s, key), Entry(Millis(now), cfg.encodeMeta(Meta(id, session, now))))]
            && Pending(cfg, t.jobs, key) == Pending(cfg, s.jobs, key) + 1
  {
    var j := Job(tenant, session, id, now, state, Indexed);
    assert (s.jobs + [j])[..|s.jobs|] == s.jobs;
  }

  /** Call i after k more of its steps. */
  function Steps(max: int, s: M.Sys, i: nat, k: nat): M.Sys {
    if k == 0 then s else M.Do(max, Steps(max, s, i, k - 1), M.Advance(i))
  }

  lemma {:induction false} PushSteps(max: int, s: M.Sys, messages: seq<string>, broken: bool, k: nat)
    requires k <= |messages|
    ensures var t := Steps(max, M.Do(max, s, M.Begin(messages, broken)), |s.calls|, k);
            t.list == s.list + messages[..k] && t.calls == s.calls + [M.Append(messages, broken, k, false)]
  {
    if k > 0 {
      PushSteps(max, s, messages, broken, k - 1);
      assert messages[..k] == messages[..k - 1] + [messages[k - 1]];
    }
  }

  /** An AppendMessages is the pushes of a call of module RedisMessages and, unless it breaks off, the trim. */
  lemma AppendIsItsSteps(max: int, s: M.Sys, messages: seq<string>, broken: bool)
    ensures var t := Steps(max, M.Do(max, s, M.Begin(messages, broken)), |s.calls|, |messages| + 1);
            && t.list == (if broken then s.list + messages else Range(s.list + messages, -max, -1))
            && t.calls == s.calls + [M.Append(messages, broken, |messages|, true)]
  {
    PushSteps(max, s, messages, broken, |messages|);
    assert messages[..|messages|] == messages;
  }

  /** Listing goes entry by entry: one that decodes contributes its metadata, any other nothing. */
  lemma DecodedSnoc(cfg: Settings, z: seq<Entry>, e: Entry)
    ensures var m := cfg.decodeMeta(e.member);
            Decoded(cfg, z + [e]) == Decoded(cfg, z) + if m.Some? then [m.value] else []
    ensures Decoded(cfg, []) == []
  {
    assert (z + [e])[..|z|] == z;
  }

  lemma {:induction false} DecodedInOrder(cfg: Settings, z: seq<Entry>)
    requires forall r :: 0 <= r < |z| ==> cfg.decodeMeta(z[r].member).Some?
    ensures |Decoded(cfg, z)| == |z|
    ensures forall r :: 0 <= r < |z| ==> Some(Decoded(cfg, z)[r]) == cfg.decodeMeta(z[r].member)
  {
    if z != [] {
      DecodedInOrder(cfg, z[..|z| - 1]);
    }
  }
}
