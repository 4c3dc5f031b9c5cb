/** The OpenAI message mapping (providers/openai.go): a history to wire messages, and a reply back. */
module OpenAI {
  import opened Core

  type Args = map<string, Value>

  /** JSON for tool arguments. */
  datatype Codec = Codec(encode: Args -> string, decode: string -> Args)

  /** The arguments of these calls survive their encoding. */
  predicate Lossless(codec: Codec, calls: seq<ToolCall>) {
    forall i :: 0 <= i < |calls| ==> codec.decode(codec.encode(calls[i].arguments)) == calls[i].arguments
  }

  datatype WireCall = WireCall(id: string, kind: string, name: string, arguments: string)

  datatype WireMsg = WireMsg(role: string, content: string, toolCalls: seq<WireCall>, toolCallID: string)

  function MapRole(r: Role): string {
    match r
    case User => "user"
    case Assistant => "assistant"
    case System => "system"
    case Tool => "tool"
    case OtherRole(_) => "unknown"
  }

  // ---- what a list of parts says ----

  function Text(parts: seq<Part>): string {
    if parts == [] then ""
    else Text(parts[..|parts| - 1]) + (match parts[|parts| - 1] case TextPart(t) => t case _ => "")
  }

  function Calls(parts: seq<Part>): seq<ToolCall> {
    if parts == [] then []
    else Calls(parts[..|parts| - 1]) + (match parts[|parts| - 1] case CallPart(c) => [c] case _ => [])
  }

  function LastResult(parts: seq<Part>): Option<ToolResult> {
    if parts == [] then None
    else match parts[|parts| - 1] case ResultPart(r) => Some(r) case _ => LastResult(parts[..|parts| - 1])
  }

  /** Text and calls are read part by part, in order. */
  lemma {:induction false} TextConcat(a: seq<Part>, b: seq<Part>)
    ensures Text(a + b) == Text(a) + Text(b)
  {
    if b == [] {
      assert a + b == a;
    } else {
      assert (a + b)[..|a + b| - 1] == a + b[..|b| - 1];
      TextConcat(a, b[..|b| - 1]);
    }
  }

  lemma OnePart(p: Part)
    ensures Text([p]) == if p.TextPart? then p.text else ""
    ensures Calls([p]) == if p.CallPart? then [p.call] else []
  {
    assert [p][..0] == [];
  }

  lemma {:induction false} LastResultAt(parts: seq<Part>, i: nat)
    requires i < |parts| && parts[i].ResultPart?
    requires forall j :: i < j < |parts| ==> !parts[j].ResultPart?
    ensures LastResult(parts) == Some(parts[i].result)
  {
    if i < |parts| - 1 {
      LastResultAt(parts[..|parts| - 1], i);
    }
  }

  lemma {:induction false} CallsConcat(a: seq<Part>, b: seq<Part>)
    ensures Calls(a + b) == Calls(a) + Calls(b)
  {
    if b == [] {
      assert a + b == a;
    } else {
      assert (a + b)[..|a + b| - 1] == a + b[..|b| - 1];
      CallsConcat(a, b[..|b| - 1]);
    }
  }

  // ---- to the wire ----

  function Encoded(codec: Codec, c: ToolCall): WireCall {
    WireCall(c.callID, "function", c.toolName, codec.encode(c.arguments))
  }

  function EncodedAll(codec: Codec, calls: seq<ToolCall>): (r: seq<WireCall>)
    ensures |r| == |calls|
  {
    seq(|calls|, i requires 0 <= i < |calls| => Encoded(codec, calls[i]))
  }

  /** The last tool result's text, unless it is empty; then the text parts, concatenated. */
  function Content(parts: seq<Part>): string {
    var r := LastResult(parts);
    if r.Some? && r.value.result != "" then r.value.result else Text(parts)
  }

  function ReplyTo(parts: seq<Part>): string {
    var r := LastResult(parts);
    if r.Some? then r.value.callID else ""
  }

  function Wired(codec: Codec, m: Message): WireMsg {
    WireMsg(MapRole(m.role), Content(m.parts), EncodedAll(codec, Calls(m.parts)), ReplyTo(m.parts))
  }

  /** One wire message for every message of known role. */
  function WiredAll(codec: Codec, msgs: seq<Message>): seq<WireMsg> {
    if msgs == [] then []
    else
      var m := msgs[|msgs| - 1];
      WiredAll(codec, msgs[..|msgs| - 1]) + if m.role.OtherRole? then [] else [Wired(codec, m)]
  }

  function Request(codec: Codec, msgs: seq<Message>, sysPrompt: string): seq<WireMsg> {
    (if sysPrompt == "" then [] else [WireMsg("system", sysPrompt, [], "")]) + WiredAll(codec, msgs)
  }

  /** A message on the wire: its role by name, its calls each as a function call, and its text, unless the last
      tool result in it has a text of its own, which then takes its place. */
  ghost predicate Carries(codec: Codec, m: Message, w: WireMsg) {
    && (m.role == User ==> w.role == "user") && (m.role == Assistant ==> w.role == "assistant")
    && (m.role == System ==> w.role == "system") && (m.role == Tool ==> w.role == "tool")
    && |w.toolCalls| == |Calls(m.parts)|
    && (forall i :: 0 <= i < |w.toolCalls| ==>
          w.toolCalls[i] == WireCall(Calls(m.parts)[i].callID, "function", Calls(m.parts)[i].toolName,
                                     codec.encode(Calls(m.parts)[i].arguments)))
    && ((forall i :: 0 <= i < |m.parts| ==> !m.parts[i].ResultPart?) ==> w.content == Text(m.parts) && w.toolCallID == "")
    && (forall i :: 0 <= i < |m.parts| && m.parts[i].ResultPart? && (forall j :: i < j < |m.parts| ==> !m.parts[j].ResultPart?) ==>
          w.toolCallID == m.parts[i].result.callID
          && w.content == if m.parts[i].result.result != "" then m.parts[i].result.result else Text(m.parts))
  }

  lemma WiredCarries(codec: Codec, m: Message)
    ensures Carries(codec, m, Wired(codec, m))
  {
    if forall i :: 0 <= i < |m.parts| ==> !m.parts[i].ResultPart? {
      NoResultParts(m.parts);
    }
    forall i | 0 <= i < |m.parts| && m.parts[i].ResultPart? && (forall j :: i < j < |m.parts| ==> !m.parts[j].ResultPart?)
      ensures LastResult(m.parts) == Some(m.parts[i].result)
    {
      LastResultAt(m.parts, i);
    }
  }

  method MapMessage(codec: Codec, m: Message) returns (msg: WireMsg)
    ensures msg == Wired(codec, m)
    ensures Carries(codec, m, msg)
  {
    msg := WireMsg(MapRole(m.role), "", [], "");
    var builder := "";
    for i := 0 to |m.parts|
      invariant msg.role == MapRole(m.role)
      invariant builder == Text(m.parts[..i])
      invariant msg.toolCalls == EncodedAll(codec, Calls(m.parts[..i]))
      invariant msg.toolCallID == ReplyTo(m.parts[..i])
      invariant msg.content == match LastResult(m.parts[..i]) case None => "" case Some(r) => r.result
    {
      assert m.parts[..i + 1][..i] == m.parts[..i];
      match m.parts[i]
      case TextPart(t) => builder := builder + t;
      case CallPart(c) =>
        assert Calls(m.parts[..i + 1]) == Calls(m.parts[..i]) + [c];
        msg := msg.(toolCalls := msg.toolCalls + [WireCall(c.callID, "function", c.toolName, codec.encode(c.arguments))]);
      case ResultPart(r) => msg := msg.(toolCallID := r.callID, content := r.result);
      case _ =>
    }
    assert m.parts[..|m.parts|] == m.parts;
    if |builder| > 0 && msg.content == "" {
      msg := msg.(content := builder);
    }
    WiredCarries(codec, m);
  }

  lemma RequestSnoc(codec: Codec, msgs: seq<Message>, m: Message, sysPrompt: string)
    ensures Request(codec, msgs + [m], sysPrompt)
         == Request(codec, msgs, sysPrompt) + if m.role.OtherRole? then [] else [Wired(codec, m)]
  {
    assert (msgs + [m])[..|msgs|] == msgs;
  }

  /** Where the messages of known role stand, in order. */
  function KnownIndices(msgs: seq<Message>): (r: seq<nat>)
    ensures forall k :: 0 <= k < |r| ==> r[k] < |msgs| && !msgs[r[k]].role.OtherRole?
    ensures forall k, l :: 0 <= k < l < |r| ==> r[k] < r[l]
    ensures forall i :: 0 <= i < |msgs| && !msgs[i].role.OtherRole? ==> i in r
  {
    if msgs == [] then []
    else KnownIndices(msgs[..|msgs| - 1]) + if msgs[|msgs| - 1].role.OtherRole? then [] else [|msgs| - 1]
  }

  /** One wire message for each message of known role, in order. */
  ghost predicate CarriesAll(codec: Codec, msgs: seq<Message>, wire: seq<WireMsg>) {
    && |wire| == |KnownIndices(msgs)|
    && forall k :: 0 <= k < |wire| ==> Carries(codec, msgs[KnownIndices(msgs)[k]], wire[k])
  }

  lemma {:induction false} WiredAllCarries(codec: Codec, msgs: seq<Message>)
    ensures CarriesAll(codec, msgs, WiredAll(codec, msgs))
  {
    if msgs != [] {
      var n := |msgs| - 1;
      var before, wire := msgs[..n], WiredAll(codec, msgs);
      WiredAllCarries(codec, before);
      forall k | 0 <= k < |wire| ensures Carries(codec, msgs[KnownIndices(msgs)[k]], wire[k]) {
        if k < |KnownIndices(before)| {
          assert before[KnownIndices(before)[k]] == msgs[KnownIndices(msgs)[k]];
        } else {
          WiredCarries(codec, msgs[n]);
        }
      }
    }
  }

  /** The request: the system prompt first, if there is one, then the messages. */
  ghost predicate Asks(codec: Codec, msgs: seq<Message>, sysPrompt: string, out: seq<WireMsg>) {
    if sysPrompt == "" then CarriesAll(codec, msgs, out)
    else out != [] && out[0] == WireMsg("system", sysPrompt, [], "") && CarriesAll(codec, msgs, out[1..])
  }

  lemma RequestAsks(codec: Codec, msgs: seq<Message>, sysPrompt: string)
    ensures Asks(codec, msgs, sysPrompt, Request(codec, msgs, sysPrompt))
  {
    WiredAllCarries(codec, msgs);
    assert [] + WiredAll(codec, msgs) == WiredAll(codec, msgs);
    assert ([WireMsg("system", sysPrompt, [], "")] + WiredAll(codec, msgs))[1..] == WiredAll(codec, msgs);
  }

  method MapMessages(codec: Codec, msgs: seq<Message>, sysPrompt: string) returns (out: seq<WireMsg>)
    ensures out == Request(codec, msgs, sysPrompt)
    ensures Asks(codec, msgs, sysPrompt, out)
  {
    out := [];
    if sysPrompt != "" {
      out := out + [WireMsg("system", sysPrompt, [], "")];
    }
    for i := 0 to |msgs|
      invariant out == Request(codec, msgs[..i], sysPrompt)
    {
      assert msgs[..i + 1] == msgs[..i] + [msgs[i]];
      RequestSnoc(codec, msgs[..i], msgs[i], sysPrompt);
      if MapRole(msgs[i].role) == "unknown" {
        continue;
      }
      var msg := MapMessage(codec, msgs[i]);
      out := out + [msg];
    }
    assert msgs[..|msgs|] == msgs;
    RequestAsks(codec, msgs, sysPrompt);
  }

  // ---- from the wire ----

  function Decoded(codec: Codec, w: WireCall): ToolCall {
    ToolCall(w.id, w.name, codec.decode(w.arguments))
  }

  function CallParts(calls: seq<ToolCall>): (r: seq<Part>)
    ensures |r| == |calls|
  {
    seq(|calls|, i requires 0 <= i < |calls| => CallPart(calls[i]))
  }

  function DecodedAll(codec: Codec, calls: seq<WireCall>): (r: seq<ToolCall>)
    ensures |r| == |calls|
  {
    seq(|calls|, i requires 0 <= i < |calls| => Decoded(codec, calls[i]))
  }

  /** A reply in normal form: its text first, if it has any, then its calls. */
  function Reply(text: string, calls: seq<ToolCall>): Message {
    Message("", Assistant, (if text == "" then [] else [TextPart(text)]) + CallParts(calls))
  }

  method MapResponse(codec: Codec, choices: seq<WireMsg>) returns (msg: Message)
    requires choices != []
    ensures msg == Reply(choices[0].content, DecodedAll(codec, choices[0].toolCalls))
    ensures var w, n := choices[0], if choices[0].content == "" then 0 else 1;
            && msg.role == Assistant && |msg.parts| == n + |w.toolCalls|
            && (w.content != "" ==> msg.parts[0] == TextPart(w.content))
            && forall i :: 0 <= i < |w.toolCalls| ==>
                 msg.parts[n + i]
                 == CallPart(ToolCall(w.toolCalls[i].id, w.toolCalls[i].name, codec.decode(w.toolCalls[i].arguments)))
  {
    var choice := choices[0];
    msg := Message("", Assistant, []);
    if choice.content != "" {
      msg := msg.(parts := msg.parts + [TextPart(choice.content)]);
    }
    for i := 0 to |choice.toolCalls|
      invariant msg == Reply(choice.content, DecodedAll(codec, choice.toolCalls[..i]))
    {
      var tc := choice.toolCalls[i];
      assert CallParts(DecodedAll(codec, choice.toolCalls[..i + 1]))
          == CallParts(DecodedAll(codec, choice.toolCalls[..i])) + [CallPart(Decoded(codec, tc))];
      msg := msg.(parts := msg.parts + [CallPart(ToolCall(tc.id, tc.name, codec.decode(tc.arguments)))]);
    }
    assert choice.toolCalls[..|choice.toolCalls|] == choice.toolCalls;
  }

  // ---- round trips ----

  lemma PartsSnoc(parts: seq<Part>, p: Part)
    requires !p.ResultPart?
    ensures Text(parts + [p]) == Text(parts) + (if p.TextPart? then p.text else "")
    ensures Calls(parts + [p]) == Calls(parts) + (if p.CallPart? then [p.call] else [])
    ensures LastResult(parts + [p]) == LastResult(parts)
  {
    assert (parts + [p])[..|parts|] == parts;
  }

  lemma ReplySnoc(text: string, calls: seq<ToolCall>, c: ToolCall)
    ensures Reply(text, calls + [c]).parts == Reply(text, calls).parts + [CallPart(c)]
  {
    assert CallParts(calls + [c]) == CallParts(calls) + [CallPart(c)];
  }

  lemma {:induction false} ReplySays(text: string, calls: seq<ToolCall>)
    ensures Text(Reply(text, calls).parts) == text
    ensures Calls(Reply(text, calls).parts) == calls
    ensures LastResult(Reply(text, calls).parts) == None
    decreases |calls|
  {
    if calls == [] {
      if text != "" {
        PartsSnoc([], TextPart(text));
        assert Reply(text, calls).parts == [] + [TextPart(text)];
      }
    } else {
      var before, last := calls[..|calls| - 1], calls[|calls| - 1];
      assert calls == before + [last];
      ReplySays(text, before);
      ReplySnoc(text, before, last);
      PartsSnoc(Reply(text, before).parts, CallPart(last));
    }
  }

  lemma DecodedEncoded(codec: Codec, calls: seq<ToolCall>)
    ensures DecodedAll(codec, EncodedAll(codec, calls)) == calls <==> Lossless(codec, calls)
  {
    var back := DecodedAll(codec, EncodedAll(codec, calls));
    forall i | 0 <= i < |calls|
      ensures back[i] == calls[i] <==> codec.decode(codec.encode(calls[i].arguments)) == calls[i].arguments
    {
      assert back[i] == ToolCall(calls[i].callID, calls[i].toolName, codec.decode(codec.encode(calls[i].arguments)));
    }
  }

  /** The message a provider that echoed `m` would be read as. */
  function RoundTrip(codec: Codec, m: Message): Message {
    var w := Wired(codec, m);
    Reply(w.content, DecodedAll(codec, w.toolCalls))
  }

  /** Message.Validate for the assistant role. */
  predicate ValidAssistant(m: Message) {
    m.role == Assistant && forall i :: 0 <= i < |m.parts| ==> !m.parts[i].ResultPart?
  }

  lemma {:induction false} NoResultParts(parts: seq<Part>)
    requires forall i :: 0 <= i < |parts| ==> !parts[i].ResultPart?
    ensures LastResult(parts) == None
  {
    if parts != [] {
      NoResultParts(parts[..|parts| - 1]);
    }
  }

  /** A valid assistant message whose arguments survive their encoding comes back as all its text followed by
      all its calls, in order; going round again changes nothing, and both forms make the same request. */
  lemma RoundTripIsNormalForm(codec: Codec, m: Message)
    requires Lossless(codec, Calls(m.parts)) && ValidAssistant(m)
    ensures RoundTrip(codec, m) == Reply(Text(m.parts), Calls(m.parts))
    ensures RoundTrip(codec, RoundTrip(codec, m)) == RoundTrip(codec, m)
    ensures Wired(codec, RoundTrip(codec, m)) == Wired(codec, m)
  {
    NoResultParts(m.parts);
    DecodedEncoded(codec, Calls(m.parts));
    ReplySays(Text(m.parts), Calls(m.parts));
  }

  /** For any assistant message at all, the round trip preserves the request exactly when the message does
      not answer a tool call. */
  lemma RoundTripKeepsRequestIff(codec: Codec, m: Message)
    requires Lossless(codec, Calls(m.parts)) && m.role == Assistant
    ensures Wired(codec, RoundTrip(codec, m)) == Wired(codec, m) <==> ReplyTo(m.parts) == ""
  {
    DecodedEncoded(codec, Calls(m.parts));
    ReplySays(Content(m.parts), Calls(m.parts));
  }

  /** A tool message holds tool results only, and of those its wire form carries just the last, its text and its
      call: the others change nothing in the request. */
  lemma OnlyLastResultSurvives(codec: Codec, m: Message)
    requires m.parts != [] && forall i :: 0 <= i < |m.parts| ==> m.parts[i].ResultPart?
    ensures Wired(codec, m).content == m.parts[|m.parts| - 1].result.result
    ensures Wired(codec, m).toolCallID == m.parts[|m.parts| - 1].result.callID
    ensures Wired(codec, m) == Wired(codec, m.(parts := [m.parts[|m.parts| - 1]]))
  {
    OnlyResults(m.parts);
    OnlyResults([m.parts[|m.parts| - 1]]);
  }

  lemma {:induction false} OnlyResults(parts: seq<Part>)
    requires forall i :: 0 <= i < |parts| ==> parts[i].ResultPart?
    ensures Text(parts) == "" && Calls(parts) == []
  {
    if parts != [] {
      OnlyResults(parts[..|parts| - 1]);
    }
  }

  // ---- tool calls over a history ----

  function Emitted(wire: seq<WireMsg>): seq<WireCall> {
    if wire == [] then [] else Emitted(wire[..|wire| - 1]) + wire[|wire| - 1].toolCalls
  }

  /** Every part of the history, in order, leaving out messages of unknown role. */
  function KnownParts(msgs: seq<Message>): seq<Part> {
    if msgs == [] then []
    else KnownParts(msgs[..|msgs| - 1]) + if msgs[|msgs| - 1].role.OtherRole? then [] else msgs[|msgs| - 1].parts
  }

  lemma EncodedConcat(codec: Codec, a: seq<ToolCall>, b: seq<ToolCall>)
    ensures EncodedAll(codec, a + b) == EncodedAll(codec, a) + EncodedAll(codec, b)
  {
  }

  lemma EmittedSnoc(wire: seq<WireMsg>, w: WireMsg)
    ensures Emitted(wire + [w]) == Emitted(wire) + w.toolCalls
  {
    assert (wire + [w])[..|wire|] == wire;
  }

  lemma KnownPartsSnoc(msgs: seq<Message>, m: Message)
    ensures KnownParts(msgs + [m]) == KnownParts(msgs) + if m.role.OtherRole? then [] else m.parts
  {
    assert (msgs + [m])[..|msgs|] == msgs;
  }

  lemma EmittedByNobody(codec: Codec, sysPrompt: string)
    ensures Emitted(Request(codec, [], sysPrompt)) == []
  {
    var wire := Request(codec, [], sysPrompt);
    if sysPrompt != "" {
      assert wire == [] + [WireMsg("system", sysPrompt, [], "")];
      EmittedSnoc([], WireMsg("system", sysPrompt, [], ""));
    }
  }

  lemma {:induction false} EmittedCalls(codec: Codec, msgs: seq<Message>, sysPrompt: string)
    ensures Emitted(Request(codec, msgs, sysPrompt)) == EncodedAll(codec, Calls(KnownParts(msgs)))
  {
    if msgs == [] {
      EmittedByNobody(codec, sysPrompt);
    } else {
      var before, last := msgs[..|msgs| - 1], msgs[|msgs| - 1];
      assert msgs == before + [last];
      EmittedCalls(codec, before, sysPrompt);
      RequestSnoc(codec, before, last, sysPrompt);
      KnownPartsSnoc(before, last);
      if last.role.OtherRole? {
        assert KnownParts(before) + [] == KnownParts(before);
        assert Request(codec, before, sysPrompt) + [] == Request(codec, before, sysPrompt);
      } else {
        EmittedSnoc(Request(codec, before, sysPrompt), Wired(codec, last));
        CallsConcat(KnownParts(before), last.parts);
        EncodedConcat(codec, Calls(KnownParts(before)), Calls(last.parts));
      }
    }
  }

  /** The tool calls a request carries are the calls of the history's known-role messages, in order; they
      carry their arguments exactly when those survive their encoding. */
  lemma RequestCarriesCalls(codec: Codec, msgs: seq<Message>, sysPrompt: string)
    ensures var calls := Calls(KnownParts(msgs));
            var emitted := Emitted(Request(codec, msgs, sysPrompt));
            && |emitted| == |calls|
            && (forall i :: 0 <= i < |calls| ==>
                  emitted[i].id == calls[i].callID && emitted[i].kind == "function" && emitted[i].name == calls[i].toolName)
            && (DecodedAll(codec, emitted) == calls <==> Lossless(codec, calls))
  {
    EmittedCalls(codec, msgs, sysPrompt);
    DecodedEncoded(codec, Calls(KnownParts(msgs)));
  }
}
