/** The form of the three requests: whose side each part is on, what it was made of, and what is never sent. */
module ProjectionShapes {
  import opened Wrappers
  import opened JsonValues
  import opened PythonText
  import opened Events
  import opened Projections

  /** The content of a result: its error text if it has one that is not empty, or else its output. */
  ghost predicate SaysResult(p: Payload, id: ToolId, content: Json, isError: bool) {
    && p.ToolResult? && p.toolUseId == id
    && (isError <==> p.error.Some? && p.error.value != "")
    && content == (if p.error.Some? && p.error.value != "" then Str(p.error.value)
                   else if p.output.Some? then p.output.value else Str(""))
  }

  // ---- Anthropic -----------------------------------------------------------------------------------------

  /** What an event contributes: texts and results on the user's side, answers and calls on the assistant's. */
  ghost predicate Contributes(p: Payload, role: Role, b: Block) {
    match b
    case TextBlock(text) =>
      if role == User then p == Summary(text) || (p.UserMessage? && text == PyStr(p.input))
      else p.AssistantMessage? && p.text == text && text != ""
    case ToolUseBlock(id, name, input) => role == Assistant && p == ToolUse(id, name, input)
    case ToolResultBlock(id, content, isError) => role == User && SaysResult(p, id, content, isError)
  }

  ghost predicate BlockFrom(events: seq<Event>, role: Role, b: Block) {
    exists e :: e in events && Contributes(e.payload, role, b)
  }

  ghost predicate GroupsFrom(events: seq<Event>, groups: seq<Group>) {
    forall g, b :: g in groups && b in g.blocks ==> BlockFrom(events, g.role, b)
  }

  lemma TranslateContributes(p: Payload)
    ensures Translate(p).Some? ==>
              forall b :: b in Translate(p).value.blocks ==> Contributes(p, Translate(p).value.role, b)
  {
  }

  lemma {:induction false} GroupsAreFrom(events: seq<Event>)
    ensures GroupsFrom(events, Groups(events))
  {
    hide Contributes, Translate;
    if events != [] {
      var init, e := events[..|events| - 1], events[|events| - 1];
      assert events == init + [e];
      GroupsAreFrom(init);
      var groups := Groups(init);
      forall g, b | g in groups && b in g.blocks ensures BlockFrom(events, g.role, b) {
        var x :| x in init && Contributes(x.payload, g.role, b);
        assert x in events;
      }
      if Translate(e.payload).Some? {
        var t := Translate(e.payload).value;
        TranslateContributes(e.payload);
        forall b | b in t.blocks ensures BlockFrom(events, t.role, b) {
          assert e in events;
        }
        AddGroupFrom(events, groups, t);
      }
    }
  }

  lemma AddGroupFrom(events: seq<Event>, groups: seq<Group>, t: Group)
    requires GroupsFrom(events, groups) && forall b :: b in t.blocks ==> BlockFrom(events, t.role, b)
    ensures GroupsFrom(events, AddGroup(groups, t))
  {
    hide BlockFrom;
    var to := AddGroup(groups, t);
    forall g, b | g in to && b in g.blocks ensures BlockFrom(events, g.role, b) {
      if groups != [] && groups[|groups| - 1].role == t.role {
        var last := groups[|groups| - 1];
        assert last in groups;
        if g in groups[..|groups| - 1] { assert g in groups; }
      }
    }
  }

  /** Each part of an Anthropic request is some event's, on its side; a single text is sent as a plain string. */
  lemma AnthropicForm(events: seq<Event>, m: Message)
    requires m in AnthropicMessages(events)
    ensures match m.content
            case PlainText(text) => BlockFrom(events, m.role, TextBlock(text))
            case Blocks(blocks) =>
              && (forall b :: b in blocks ==> BlockFrom(events, m.role, b))
              && !(|blocks| == 1 && blocks[0].TextBlock?)
  {
    GroupsAreFrom(events);
    var i :| 0 <= i < |AnthropicMessages(events)| && AnthropicMessages(events)[i] == m;
    var g := Groups(events)[i];
    assert g in Groups(events);
    if m.content.PlainText? { assert g.blocks[0] in g.blocks; }
  }

  // ---- OpenAI ----------------------------------------------------------------------------------------------

  /** A call as it is sent: an empty object in place of arguments that count as false. */
  ghost predicate SentCall(p: Payload, call: WireCall) {
    && p.ToolUse? && p.id == call.id && p.name == call.name
    && call.arguments ==
       (if p.arguments in {Null, Bool(false), Int(0), Str(""), List([])} then Dict([]) else p.arguments)
  }

  ghost predicate CallFrom(events: seq<Event>, call: WireCall) {
    exists e :: e in events && SentCall(e.payload, call)
  }

  /** A result as it is sent: its content printed. */
  ghost predicate SentResult(p: Payload, id: ToolId, result: string) {
    exists content, isError :: SaysResult(p, id, content, isError) && result == PyStr(content)
  }

  ghost predicate ChatFrom(events: seq<Event>, m: ChatMessage) {
    match m
    case UserChat(text) =>
      exists e :: e in events
                  && (e.payload == Summary(text) || (e.payload.UserMessage? && text == PyStr(e.payload.input)))
    case AssistantChat(content, calls) =>
      && (forall c :: c in calls ==> CallFrom(events, c))
      && (calls != [] ==> content != Some(""))
      && (calls == [] ==> content.Some?)
      && (content.Some? ==> exists e :: e in events && e.payload.AssistantMessage? && e.payload.text == content.value)
    case ToolChat(id, result) => exists e :: e in events && SentResult(e.payload, id, result)
  }

  lemma ChatStays(events: seq<Event>, e: Event, m: ChatMessage)
    requires ChatFrom(events, m)
    ensures ChatFrom(events + [e], m)
  {
    hide SentCall, SentResult;
    assert forall x :: x in events ==> x in events + [e];
    if m.AssistantChat? {
      forall c | c in m.calls ensures CallFrom(events + [e], c) {
        var x :| x in events && SentCall(x.payload, c);
      }
    }
  }

  /** Each message of an OpenAI request is some event's; one with calls never has an empty text. */
  lemma {:induction false} OpenAIForm(events: seq<Event>)
    ensures forall m :: m in OpenAIMessages(events) ==> ChatFrom(events, m)
  {
    hide ChatFrom;
    if events != [] {
      var init, e := events[..|events| - 1], events[|events| - 1];
      assert events == init + [e];
      OpenAIForm(init);
      var before := OpenAIMessages(init);
      forall m | m in before ensures ChatFrom(events, m) { ChatStays(init, e, m); }
      ChatAdded(events, e, before);
    }
  }

  lemma ChatAdded(events: seq<Event>, e: Event, messages: seq<ChatMessage>)
    requires e in events && forall m :: m in messages ==> ChatFrom(events, m)
    ensures forall m :: m in AppendChat(messages, e.payload) ==> ChatFrom(events, m)
  {
    var p := e.payload;
    match p {
      case ToolUse(id, name, args) => CallMerged(events, e, messages);
      case ToolResult(id, output, error) =>
        var content := if Truthy(error) then Str(error.value) else Shown(output);
        assert SaysResult(p, id, content, Truthy(error));
        assert SentResult(p, id, PyStr(content));
        assert ChatFrom(events, ToolChat(id, PyStr(content)));
      case _ =>
    }
  }

  lemma CallMerged(events: seq<Event>, e: Event, messages: seq<ChatMessage>)
    requires e in events && e.payload.ToolUse? && forall m :: m in messages ==> ChatFrom(events, m)
    ensures forall m :: m in AppendChat(messages, e.payload) ==> ChatFrom(events, m)
  {
    var call := WireCall(e.payload.id, e.payload.name, OrEmpty(e.payload.arguments));
    assert SentCall(e.payload, call);
    assert CallFrom(events, call);
    var to := MergeToolUse(messages, call);
    hide CallFrom;
    if messages != [] && messages[|messages| - 1].AssistantChat? {
      var n := |messages| - 1;
      var prev := messages[n];
      assert prev in messages && ChatFrom(events, prev);
      assert to[n].calls == prev.calls + [call];
      assert ChatFrom(events, to[n]);
      forall m | m in to ensures ChatFrom(events, m) {
        var k :| 0 <= k < |to| && to[k] == m;
        if k < n { assert messages[k] in messages; }
      }
    } else {
      assert ChatFrom(events, AssistantChat(None, [call]));
    }
  }

  // ---- Gemini ----------------------------------------------------------------------------------------------

  ghost predicate PartFrom(events: seq<Event>, names: map<ToolId, string>, model: bool, part: Part) {
    match part
    case TextPart(text) =>
      && text != ""
      && exists e :: e in events && if model then e.payload.AssistantMessage? && e.payload.text == text
                                    else
                                      || e.payload == Summary(text)
                                      || (e.payload.UserMessage? && text == PyStr(e.payload.input))
    case FunctionCall(name, args) =>
      model && exists e, id :: e in events && SentCall(e.payload, WireCall(id, name, args))
    case FunctionResponse(responder, content, isError) =>
      !model && exists e :: e in events && Responds(e.payload, names, responder, content, isError)
  }

  /** A response is under the name of its call, or under the bare id without one. */
  ghost predicate Responds(p: Payload, names: map<ToolId, string>, responder: Json, content: string, isError: bool) {
    && p.ToolResult?
    && responder == (if p.toolUseId in names then Str(names[p.toolUseId])
                     else if p.toolUseId.TextId? then Str(p.toolUseId.text) else Int(p.toolUseId.number))
    && exists value :: SaysResult(p, p.toolUseId, value, isError) && content == PyStr(value)
  }

  ghost predicate TurnFrom(events: seq<Event>, names: map<ToolId, string>, t: Turn) {
    forall part :: part in t.parts ==> PartFrom(events, names, t.model, part)
  }

  lemma PartStays(events: seq<Event>, e: Event, names: map<ToolId, string>, model: bool, part: Part)
    requires PartFrom(events, names, model, part)
    ensures PartFrom(events + [e], names, model, part)
  {
    hide SentCall, Responds;
    assert forall x :: x in events ==> x in events + [e];
    if part.FunctionCall? {
      var x, id :| x in events && SentCall(x.payload, WireCall(id, part.name, part.args));
      assert x in events + [e];
    }
  }

  /** Each part of a Gemini request is some event's, on its side, and no text is empty. */
  lemma {:induction false} GeminiForm(events: seq<Event>, names: map<ToolId, string>)
    ensures forall t :: t in GeminiWith(events, names) ==> TurnFrom(events, names, t)
  {
    hide PartFrom;
    if events != [] {
      var init, e := events[..|events| - 1], events[|events| - 1];
      assert events == init + [e];
      GeminiForm(init, names);
      forall t | t in GeminiWith(init, names) ensures TurnFrom(events, names, t) {
        forall part | part in t.parts ensures PartFrom(events, names, t.model, part) {
          PartStays(init, e, names, t.model, part);
        }
      }
      TurnAdded(events, e, names, GeminiWith(init, names));
    }
  }

  lemma TurnAdded(events: seq<Event>, e: Event, names: map<ToolId, string>, contents: seq<Turn>)
    requires e in events && forall t :: t in contents ==> TurnFrom(events, names, t)
    ensures forall t :: t in AppendGemini(contents, names, e.payload) ==> TurnFrom(events, names, t)
  {
    var p := e.payload;
    match p {
      case ToolUse(id, name, args) => FunctionCallAdded(events, e, names, contents);
      case ToolResult(id, output, error) =>
        var value := if Truthy(error) then Str(error.value) else Shown(output);
        assert SaysResult(p, id, value, Truthy(error));
        assert Responds(p, names, WireName(names, id), PyStr(value), Truthy(error));
        assert PartFrom(events, names, false, FunctionResponse(WireName(names, id), PyStr(value), Truthy(error)));
      case _ =>
    }
  }

  lemma FunctionCallAdded(events: seq<Event>, e: Event, names: map<ToolId, string>, contents: seq<Turn>)
    requires e in events && e.payload.ToolUse? && forall t :: t in contents ==> TurnFrom(events, names, t)
    ensures forall t :: t in AppendGemini(contents, names, e.payload) ==> TurnFrom(events, names, t)
  {
    var part := FunctionCall(e.payload.name, OrEmpty(e.payload.arguments));
    assert SentCall(e.payload, WireCall(e.payload.id, part.name, part.args));
    assert PartFrom(events, names, true, part);
    hide PartFrom;
    var to := AppendFunctionCall(contents, part);
    if contents != [] && contents[|contents| - 1].model {
      var n := |contents| - 1;
      assert contents[n] in contents;
      forall t | t in to ensures TurnFrom(events, names, t) {
        var k :| 0 <= k < |to| && to[k] == t;
        if k < n { assert contents[k] in contents; }
      }
    }
  }
}
