/**
  The three provider projections of an effective stream: Anthropic groups blocks by role, OpenAI folds
  calls into the preceding assistant message, Gemini folds them into the preceding model entry.
  */
module Projections {
  import opened Wrappers
  import opened JsonValues
  import opened PythonText
  import opened Events

  function WithCallName(names: map<ToolId, string>, p: Payload): map<ToolId, string> {
    if p.ToolUse? then names[p.id := p.name] else names
  }

  /** Name of the last call with each id. */
  function CallNames(events: seq<Event>): map<ToolId, string> {
    if events == [] then map[]
    else WithCallName(CallNames(events[..|events| - 1]), events[|events| - 1].payload)
  }

  predicate Truthy(s: Option<string>) {
    s.Some? && s.value != ""
  }

  /** An output, empty where the result has none. */
  function Shown(output: Option<Json>): Json {
    if output.Some? then output.value else Str("")
  }

  /** An id as a JSON value. */
  function IdValue(id: ToolId): Json {
    if id.TextId? then Str(id.text) else Int(id.number)
  }

  // ---- Anthropic ------------------------------------------------------------------------------------------

  datatype Role = User | Assistant

  datatype Block =
    | TextBlock(text: string)
    | ToolUseBlock(id: ToolId, name: string, input: Json)
    | ToolResultBlock(toolUseId: ToolId, content: Json, isError: bool)

  datatype Group = Group(role: Role, blocks: seq<Block>)

  datatype Content = PlainText(text: string) | Blocks(blocks: seq<Block>)

  datatype Message = Message(role: Role, content: Content)

  /** Role and block of an event, or nothing for an empty assistant text and for other events. */
  function Translate(p: Payload): Option<Group> {
    match p
    case UserMessage(input) => Some(Group(User, [TextBlock(PyStr(input))]))
    case Summary(text) => Some(Group(User, [TextBlock(text)]))
    case AssistantMessage(text, _, _) => if text == "" then None else Some(Group(Assistant, [TextBlock(text)]))
    case ToolUse(id, name, args) => Some(Group(Assistant, [ToolUseBlock(id, name, args)]))
    case ToolResult(id, output, error) =>
      Some(Group(User, [ToolResultBlock(id, if Truthy(error) then Str(error.value) else Shown(output), Truthy(error))]))
    case _ => None
  }

  function AddGroup(groups: seq<Group>, g: Group): seq<Group> {
    if groups != [] && groups[|groups| - 1].role == g.role then
      var last := groups[|groups| - 1];
      groups[..|groups| - 1] + [Group(last.role, last.blocks + g.blocks)]
    else groups + [g]
  }

  function Groups(events: seq<Event>): seq<Group> {
    if events == [] then []
    else
      var groups := Groups(events[..|events| - 1]);
      match Translate(events[|events| - 1].payload)
      case None => groups
      case Some(g) => AddGroup(groups, g)
  }

  /** A single text block is sent as a plain string. */
  function Finalize(g: Group): Message {
    if |g.blocks| == 1 && g.blocks[0].TextBlock? then Message(g.role, PlainText(g.blocks[0].text))
    else Message(g.role, Blocks(g.blocks))
  }

  function FinalizeAll(groups: seq<Group>): (r: seq<Message>)
    ensures |r| == |groups|
    ensures forall i :: 0 <= i < |groups| ==> r[i] == Finalize(groups[i])
  {
    seq(|groups|, i requires 0 <= i < |groups| => Finalize(groups[i]))
  }

  function AnthropicMessages(events: seq<Event>): seq<Message> {
    FinalizeAll(Groups(events))
  }

  method GroupMessages(events: seq<Event>) returns (messages: seq<Message>)
    ensures messages == AnthropicMessages(events)
  {
    var groups: seq<Group> := [];
    var current: Option<Group> := None;
    var i := 0;
    while i < |events|
      invariant 0 <= i <= |events|
      invariant current.None? ==> groups == []
      invariant Groups(events[..i]) == if current.Some? then groups + [current.value] else []
    {
      assert events[..i + 1][..i] == events[..i];
      var translated := Translate(events[i].payload);
      if translated.Some? {
        var g := translated.value;
        if current.Some? && current.value.role == g.role {
          current := Some(Group(g.role, current.value.blocks + g.blocks));
        } else {
          if current.Some? { groups := groups + [current.value]; }
          current := translated;
        }
      }
      i := i + 1;
    }
    assert events[..i] == events;
    if current.Some? { groups := groups + [current.value]; }
    messages := FinalizeAll(groups);
  }

  // ---- OpenAI ---------------------------------------------------------------------------------------------

  /** A wire call; its arguments travel as the printed text of this value. */
  datatype WireCall = WireCall(id: ToolId, name: string, arguments: Json)

  datatype ChatMessage =
    | UserChat(text: string)
    | AssistantChat(content: Option<string>, calls: seq<WireCall>)
    | ToolChat(toolCallId: ToolId, result: string)

  function MergeToolUse(messages: seq<ChatMessage>, call: WireCall): seq<ChatMessage> {
    if messages != [] && messages[|messages| - 1].AssistantChat? then
      var prev := messages[|messages| - 1];
      messages[|messages| - 1 :=
        AssistantChat(if prev.content == Some("") then None else prev.content, prev.calls + [call])]
    else messages + [AssistantChat(None, [call])]
  }

  function AppendChat(messages: seq<ChatMessage>, p: Payload): seq<ChatMessage> {
    match p
    case UserMessage(input) => messages + [UserChat(PyStr(input))]
    case Summary(text) => messages + [UserChat(text)]
    case AssistantMessage(text, _, _) => messages + [AssistantChat(Some(text), [])]
    case ToolUse(id, name, args) => MergeToolUse(messages, WireCall(id, name, OrEmpty(args)))
    case ToolResult(id, output, error) =>
      messages + [ToolChat(id, if Truthy(error) then error.value else PyStr(Shown(output)))]
    case _ => messages
  }

  function OpenAIMessages(events: seq<Event>): seq<ChatMessage> {
    if events == [] then []
    else AppendChat(OpenAIMessages(events[..|events| - 1]), events[|events| - 1].payload)
  }

  /** The list of messages, whose last entry a call may still change. */
  class ChatList {
    var messages: seq<ChatMessage>

    constructor ()
      ensures messages == []
    {
      messages := [];
    }

    method Merge(call: WireCall)
      modifies this
      ensures messages == MergeToolUse(old(messages), call)
    {
      if messages != [] && messages[|messages| - 1].AssistantChat? {
        var prev := messages[|messages| - 1];
        prev := prev.(calls := prev.calls + [call]);
        if prev.content == Some("") { prev := prev.(content := None); }
        messages := messages[|messages| - 1 := prev];
      } else {
        messages := messages + [AssistantChat(None, [call])];
      }
    }

    method AppendEvent(p: Payload)
      modifies this
      ensures messages == AppendChat(old(messages), p)
    {
      match p {
        case UserMessage(input) => messages := messages + [UserChat(PyStr(input))];
        case Summary(text) => messages := messages + [UserChat(text)];
        case AssistantMessage(text, _, _) => messages := messages + [AssistantChat(Some(text), [])];
        case ToolUse(id, name, args) => Merge(WireCall(id, name, OrEmpty(args)));
        case ToolResult(id, output, error) =>
          messages := messages + [ToolChat(id, if Truthy(error) then error.value else PyStr(Shown(output)))];
        case _ =>
      }
    }
  }

  method BuildMessages(events: seq<Event>) returns (messages: seq<ChatMessage>)
    ensures messages == OpenAIMessages(events)
  {
    var list := new ChatList();
    var i := 0;
    while i < |events|
      invariant 0 <= i <= |events| && list.messages == OpenAIMessages(events[..i])
    {
      assert events[..i + 1][..i] == events[..i];
      list.AppendEvent(events[i].payload);
      i := i + 1;
    }
    assert events[..i] == events;
    messages := list.messages;
  }

  // ---- Gemini ---------------------------------------------------------------------------------------------

  datatype Part =
    | TextPart(text: string)
    | FunctionCall(name: string, args: Json)
    | FunctionResponse(responder: Json, content: string, isError: bool)

  datatype Turn = Turn(model: bool, parts: seq<Part>)

  function TextParts(text: string): seq<Part> {
    if text == "" then [] else [TextPart(text)]
  }

  function AppendFunctionCall(contents: seq<Turn>, call: Part): seq<Turn> {
    if contents != [] && contents[|contents| - 1].model then
      var prev := contents[|contents| - 1];
      contents[|contents| - 1 := prev.(parts := prev.parts + [call])]
    else contents + [Turn(true, [call])]
  }

  /** The call's name, or the id itself when the stream has no such call. */
  function WireName(names: map<ToolId, string>, id: ToolId): Json {
    if id in names then Str(names[id]) else IdValue(id)
  }

  function AppendGemini(contents: seq<Turn>, names: map<ToolId, string>, p: Payload): seq<Turn> {
    match p
    case UserMessage(input) => contents + [Turn(false, TextParts(PyStr(input)))]
    case Summary(text) => contents + [Turn(false, TextParts(text))]
    case AssistantMessage(text, _, _) => if text == "" then contents else contents + [Turn(true, TextParts(text))]
    case ToolUse(_, name, args) => AppendFunctionCall(contents, FunctionCall(name, OrEmpty(args)))
    case ToolResult(id, output, error) =>
      var content := if Truthy(error) then error.value else PyStr(Shown(output));
      contents + [Turn(false, [FunctionResponse(WireName(names, id), content, Truthy(error))])]
    case _ => contents
  }

  function GeminiWith(events: seq<Event>, names: map<ToolId, string>): seq<Turn> {
    if events == [] then []
    else AppendGemini(GeminiWith(events[..|events| - 1], names), names, events[|events| - 1].payload)
  }

  function GeminiContents(events: seq<Event>): seq<Turn> {
    GeminiWith(events, CallNames(events))
  }

  /** The projection object: the names of the calls are a field set anew by each call. */
  class GeminiProjection {
    var toolUseNames: map<ToolId, string>
    var contents: seq<Turn>

    constructor ()
    {
      toolUseNames, contents := map[], [];
    }

    method AppendEvent(p: Payload)
      modifies this`contents
      ensures contents == AppendGemini(old(contents), toolUseNames, p)
    {
      match p {
        case UserMessage(input) => contents := contents + [Turn(false, TextParts(PyStr(input)))];
        case Summary(text) => contents := contents + [Turn(false, TextParts(text))];
        case AssistantMessage(text, _, _) =>
          var parts := TextParts(text);
          if parts != [] { contents := contents + [Turn(true, parts)]; }
        case ToolUse(_, name, args) =>
          var part := FunctionCall(name, OrEmpty(args));
          if contents != [] && contents[|contents| - 1].model {
            var prev := contents[|contents| - 1];
            contents := contents[|contents| - 1 := prev.(parts := prev.parts + [part])];
          } else {
            contents := contents + [Turn(true, [part])];
          }
        case ToolResult(id, output, error) =>
          var content := if Truthy(error) then error.value else PyStr(Shown(output));
          var name := WireName(toolUseNames, id);
          contents := contents + [Turn(false, [FunctionResponse(name, content, Truthy(error))])];
        case _ =>
      }
    }

    method BuildContents(events: seq<Event>)
      modifies this
      ensures contents == GeminiContents(events)
    {
      toolUseNames := CallNames(events);
      contents := [];
      var i := 0;
      while i < |events|
        invariant 0 <= i <= |events| && toolUseNames == CallNames(events)
        invariant contents == GeminiWith(events[..i], CallNames(events))
      {
        assert events[..i + 1][..i] == events[..i];
        AppendEvent(events[i].payload);
        i := i + 1;
      }
      assert events[..i] == events;
    }
  }
}
