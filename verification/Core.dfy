/** The vocabulary every other module shares: agent states, messages, artifacts and errors
    (core/agent_state.go, core/message.go, core/part.go, core/errors.go, core/task.go). */
module Core {

  datatype Option<+T> = None | Some(value: T)

  /** What a variable can hold; the source's `any`, restricted to what JSON can carry. A number is its JSON
      text. */
  datatype Value =
    | Nil
    | Bool(b: bool)
    | Num(text: string)
    | Str(s: string)
    | List(items: seq<Value>)
    | Object(fields: map<string, Value>)

  datatype ToolCall = ToolCall(callID: string, toolName: string, arguments: map<string, Value>)

  datatype ToolResult = ToolResult(callID: string, result: string, isError: bool)

  datatype Part =
    | TextPart(text: string)
    | FilePart(uri: string, mimeType: string)
    | DataPart(data: map<string, Value>)
    | CallPart(call: ToolCall)
    | ResultPart(result: ToolResult)

  datatype Role = User | Assistant | System | Tool | OtherRole(name: string)

  datatype Message = Message(id: string, role: Role, parts: seq<Part>)

  datatype Artifact = Artifact(id: string, name: string, parts: seq<Part>)

  /** The source's status is an open string type; `Custom` stands for every other string. */
  datatype Status = Running | Paused | WaitingHuman | Completed | Failed | Custom(name: string)

  datatype TaskState = Working | InputRequired | TaskCompleted | TaskFailed

  function TaskStateOf(s: Status): TaskState {
    match s
    case Running => Working
    case Paused => InputRequired
    case WaitingHuman => InputRequired
    case Completed => TaskCompleted
    case Failed => TaskFailed
    case Custom(_) => Working
  }

  /** A task needs input exactly for a waiting session, is over exactly for a finished one, and else works. */
  lemma TaskStatesMean(s: Status)
    ensures TaskStateOf(s) == InputRequired <==> s in {Paused, WaitingHuman}
    ensures TaskStateOf(s) == TaskCompleted <==> s == Completed
    ensures TaskStateOf(s) == TaskFailed <==> s == Failed
  {
  }

  /** An immutable snapshot of a session. */
  datatype AgentState = AgentState(
    messages: seq<Message>,
    variables: map<string, Value>,
    artifacts: seq<Artifact>,
    stepCount: int,
    retryCount: int,
    lastNodeID: string,
    status: Status,
    checkpointID: string,
    taskID: string,
    contextID: string)
  {
    function WithMessage(m: Message): AgentState {
      this.(messages := messages + [m])
    }

    function WithVariable(key: string, val: Value): AgentState {
      this.(variables := variables[key := val])
    }

    function WithStatus(s: Status): AgentState {
      this.(status := s)
    }
  }

  /** The three edits, by what they change and what they leave. */
  lemma EditsChangeOneThing(st: AgentState, m: Message, key: string, val: Value, s: Status)
    ensures var a := st.WithMessage(m);
            && |a.messages| == |st.messages| + 1 && a.messages[|st.messages|] == m
            && a.messages[..|st.messages|] == st.messages && a == st.(messages := a.messages)
    ensures var b := st.WithVariable(key, val);
            && b.variables.Keys == st.variables.Keys + {key} && b.variables[key] == val
            && (forall k :: k in st.variables && k != key ==> b.variables[k] == st.variables[k])
            && b == st.(variables := b.variables)
    ensures st.WithStatus(s).status == s && st.WithStatus(s) == st.(status := s)
  {
    assert (st.messages + [m])[..|st.messages|] == st.messages;
  }

  const NEW_STATE := AgentState([], map[], [], 0, 0, "", Running, "", "", "")

  datatype Category = Retriable | Fatal | HumanNeeded | StateCorrupted

  /** An error and what it wraps. */
  datatype Err =
    | Plain(msg: string)
    | Wrapped(msg: string, inner: Err)
    | Agent(category: Category, nodeID: string, cause: Option<Err>)

  /** errors.As with an *AgentError target: the outermost agent error on the unwrap chain. */
  function AsAgent(e: Err): (r: Option<Err>)
    ensures r.Some? ==> r.value.Agent?
  {
    match e
    case Plain(_) => None
    case Wrapped(_, inner) => AsAgent(inner)
    case Agent(_, _, _) => Some(e)
  }

  /** The error after n times unwrapping a wrapper, if there are so many. */
  function Unwrapped(e: Err, n: nat): Option<Err> {
    if n == 0 then Some(e) else if e.Wrapped? then Unwrapped(e.inner, n - 1) else None
  }

  /** An agent error is found however deep it is wrapped, the outermost one, and none only if there is none. */
  lemma {:induction false} AsAgentFindsOutermost(e: Err, n: nat)
    ensures Unwrapped(e, n).Some? && Unwrapped(e, n).value.Agent? ==> AsAgent(e) == Unwrapped(e, n)
    ensures (forall k :: Unwrapped(e, k).Some? ==> !Unwrapped(e, k).value.Agent?) ==> AsAgent(e) == None
    decreases e
  {
    assert Unwrapped(e, 0) == Some(e);
    if e.Wrapped? {
      AsAgentFindsOutermost(e.inner, if n == 0 then 0 else n - 1);
      if forall k :: Unwrapped(e, k).Some? ==> !Unwrapped(e, k).value.Agent? {
        forall k: nat | Unwrapped(e.inner, k).Some? ensures !Unwrapped(e.inner, k).value.Agent? {
          assert Unwrapped(e, k + 1) == Unwrapped(e.inner, k);
        }
      }
    }
  }

  predicate IsCategory(e: Err, c: Category) {
    var a := AsAgent(e);
    a.Some? && a.value.category == c
  }

  const ERR_MAX_STEPS := Plain("max steps exceeded")
  const ERR_NO_NEXT_NODE := Plain("no next node found for execution, and current node is not marked as Terminal")
  const ERR_SESSION_NOT_FOUND := Plain("session not found")
  const ERR_MARSHAL := Plain("json: unsupported value")
  const ERR_CANCELED := Plain("context canceled")
}
