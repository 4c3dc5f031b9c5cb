/** InMemoryStore (memory/store.go). Snapshots are stored by value: JSON is taken to be lossless on every
    state it accepts, and `marshals` says which states those are. A UUID is a number not handed out
    before. */
module Store {
  import opened Core

  datatype CheckpointMeta = CheckpointMeta(checkpointID: nat, sessionID: string)

  datatype Contents = Contents(
    states: map<string, AgentState>,
    checkpoints: map<string, seq<CheckpointMeta>>,
    data: map<nat, AgentState>,
    minted: nat)

  const EMPTY := Contents(map[], map[], map[], 0)

  function Listed(c: Contents, sid: string): seq<CheckpointMeta> {
    if sid in c.checkpoints then c.checkpoints[sid] else []
  }

  function Latest(c: Contents, sid: string): Option<AgentState> {
    if sid in c.states then Some(c.states[sid]) else None
  }

  function Put(c: Contents, sid: string, st: AgentState): Contents {
    Contents(
      c.states[sid := st],
      c.checkpoints[sid := Listed(c, sid) + [CheckpointMeta(c.minted, sid)]],
      c.data[c.minted := st],
      c.minted + 1)
  }

  /** Every listed checkpoint of the session is its own and loadable, the list is in saving order, and the
      session's latest state is its last checkpoint. */
  ghost predicate SessionOk(c: Contents, sid: string) {
    var l := Listed(c, sid);
    && (sid in c.states <==> l != [])
    && (forall i :: 0 <= i < |l| ==> l[i].sessionID == sid && l[i].checkpointID in c.data)
    && (forall i, j :: 0 <= i < j < |l| ==> l[i].checkpointID < l[j].checkpointID)
    && (l != [] ==> c.states[sid] == c.data[l[|l| - 1].checkpointID])
  }

  ghost predicate Consistent(c: Contents) {
    && (forall id :: id in c.data ==> id < c.minted)
    && (forall sid :: SessionOk(c, sid))
  }

  /** Saving keeps the store consistent, appends exactly one loadable checkpoint, and leaves every older
      checkpoint and every other session alone. */
  lemma PutKeeps(c: Contents, sid: string, st: AgentState)
    requires Consistent(c)
    ensures Consistent(Put(c, sid, st))
    ensures Latest(Put(c, sid, st), sid) == Some(st)
    ensures c.minted !in c.data && Put(c, sid, st).data == c.data[c.minted := st]
    ensures Listed(Put(c, sid, st), sid) == Listed(c, sid) + [CheckpointMeta(c.minted, sid)]
    ensures forall other :: other != sid ==>
              Latest(Put(c, sid, st), other) == Latest(c, other) && Listed(Put(c, sid, st), other) == Listed(c, other)
  {
    var d := Put(c, sid, st);
    forall s ensures SessionOk(d, s) {
      assert SessionOk(c, s);
    }
  }

  /** The states behind a session's checkpoints, oldest first. */
  ghost function History(c: Contents, sid: string): seq<AgentState>
    requires SessionOk(c, sid)
  {
    seq(|Listed(c, sid)|, i requires 0 <= i < |Listed(c, sid)| => c.data[Listed(c, sid)[i].checkpointID])
  }

  lemma HistoryGrows(c: Contents, sid: string, st: AgentState)
    requires Consistent(c)
    ensures Consistent(Put(c, sid, st))
    ensures forall s :: SessionOk(c, s) && SessionOk(Put(c, sid, st), s)
    ensures History(Put(c, sid, st), sid) == History(c, sid) + [st]
    ensures forall other :: other != sid ==> History(Put(c, sid, st), other) == History(c, other)
  {
    PutKeeps(c, sid, st);
    var d := Put(c, sid, st);
    assert SessionOk(c, sid) && SessionOk(d, sid);
    forall other | other != sid ensures History(d, other) == History(c, other) {
      assert SessionOk(c, other) && SessionOk(d, other);
      assert |History(d, other)| == |History(c, other)|;
    }
  }

  class InMemoryStore {
    var states: map<string, AgentState>
    var checkpoints: map<string, seq<CheckpointMeta>>
    var ckptData: map<nat, AgentState>
    var minted: nat
    const marshals: AgentState -> bool

    function View(): Contents
      reads this
    {
      Contents(states, checkpoints, ckptData, minted)
    }

    constructor (marshals: AgentState -> bool)
      ensures View() == EMPTY && Consistent(View()) && this.marshals == marshals
    {
      states, checkpoints, ckptData, minted := map[], map[], map[], 0;
      this.marshals := marshals;
    }

    method Save(sessionID: string, state: AgentState) returns (id: Option<nat>)
      modifies this
      ensures id == if marshals(state) then Some(old(minted)) else None
      ensures View() == if marshals(state) then Put(old(View()), sessionID, state) else old(View())
    {
      if !marshals(state) {
        return None;
      }
      var ckptID := minted;
      minted := minted + 1;
      var meta := CheckpointMeta(ckptID, sessionID);
      states := states[sessionID := state];
      checkpoints := checkpoints[sessionID := (if sessionID in checkpoints then checkpoints[sessionID] else []) + [meta]];
      ckptData := ckptData[ckptID := state];
      return Some(ckptID);
    }

    method Load(sessionID: string) returns (r: Option<AgentState>)
      ensures r == Latest(View(), sessionID)
    {
      if sessionID !in states {
        return None;
      }
      return Some(states[sessionID]);
    }

    method LoadCheckpoint(checkpointID: nat) returns (r: Option<AgentState>)
      ensures r == if checkpointID in View().data then Some(View().data[checkpointID]) else None
    {
      if checkpointID !in ckptData {
        return None;
      }
      return Some(ckptData[checkpointID]);
    }

    method ListCheckpoints(sessionID: string) returns (r: Option<seq<CheckpointMeta>>)
      ensures sessionID !in View().checkpoints ==> r == None
      ensures sessionID in View().checkpoints ==> r == Some(Listed(View(), sessionID))
    {
      if sessionID !in checkpoints {
        return None;
      }
      return Some(checkpoints[sessionID]);
    }

    method AppendMessages(sessionID: string, messages: seq<Message>) returns (err: Option<Err>)
      modifies this
      ensures sessionID !in old(states) ==> err == Some(ERR_SESSION_NOT_FOUND) && View() == old(View())
      ensures sessionID in old(states) ==>
                var st := Extended(old(states)[sessionID], messages);
                if marshals(st) then err == None && View() == Put(old(View()), sessionID, st)
                else err == Some(ERR_MARSHAL) && View() == old(View())
      ensures err == None ==>
                && sessionID in old(states) && sessionID in states
                && states[sessionID].messages == old(states)[sessionID].messages + messages
                && states[sessionID] == old(states)[sessionID].(messages := states[sessionID].messages)
    {
      var loaded := Load(sessionID);
      if loaded == None {
        return Some(ERR_SESSION_NOT_FOUND);
      }
      var state := loaded.value.(messages := loaded.value.messages + messages);
      var id := Save(sessionID, state);
      return if id == None then Some(ERR_MARSHAL) else None;
    }
  }

  function Extended(st: AgentState, messages: seq<Message>): AgentState {
    st.(messages := st.messages + messages)
  }

  /** AppendMessages loads and saves under separate locks. Appended to the snapshot it loaded, its write
      extends the session as it stands exactly when nobody changed the session in between. */
  lemma AppendExtendsCurrentIff(c: Contents, sid: string, loaded: AgentState, messages: seq<Message>)
    requires sid in c.states
    ensures var now := Latest(Put(c, sid, Extended(loaded, messages)), sid);
            now == Some(c.states[sid].(messages := c.states[sid].messages + messages)) <==> c.states[sid] == loaded
  {
    var current := c.states[sid];
    if Extended(loaded, messages) == Extended(current, messages) {
      assert loaded.messages == (loaded.messages + messages)[..|loaded.messages|];
      assert |loaded.messages| == |current.messages|;
      assert current.messages == (current.messages + messages)[..|current.messages|];
      assert loaded == Extended(loaded, messages).(messages := loaded.messages);
      assert current == Extended(current, messages).(messages := current.messages);
    }
  }

  /** Two overlapping appends that loaded the same snapshot: the first one's messages are lost. */
  lemma OverlappingAppendsLoseOne(c: Contents, sid: string, first: seq<Message>, second: seq<Message>)
    requires sid in c.states && first != []
    ensures var base := c.states[sid];
            var end := Put(Put(c, sid, Extended(base, first)), sid, Extended(base, second));
            && Latest(end, sid) == Some(base.(messages := base.messages + second))
            && Latest(end, sid) != Some(base.(messages := base.messages + first + second))
  {
    var base := c.states[sid];
    assert |base.messages + second| != |base.messages + first + second|;
  }
}
