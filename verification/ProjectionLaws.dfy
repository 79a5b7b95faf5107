/** The three requests say the same thing: reading any of them back gives the effective stream's meaning. */
module ProjectionLaws {
  import opened Wrappers
  import opened JsonValues
  import opened PythonText
  import opened Events
  import opened Mutations
  import opened LogHistory
  import opened Projections

  /** What a model is told: texts with their side, calls, and results under the name of their call. */
  datatype Item =
    | Said(byUser: bool, text: string)
    | CallItem(name: string, arguments: Json)
    | Returned(caller: Json, content: Json)

  function Texts(byUser: bool, text: string): seq<Item> {
    if text == "" then [] else [Said(byUser, text)]
  }

  /** An error that is not empty, or else the output. */
  function ResultContent(p: Payload): Json
    requires p.ToolResult?
  {
    if Truthy(p.error) then Str(p.error.value) else Shown(p.output)
  }

  /** The meaning of one event; `printed` is how it is said where outputs are strings and arguments objects. */
  function EventItems(p: Payload, names: map<ToolId, string>, printed: bool): seq<Item> {
    match p
    case UserMessage(input) => Texts(true, PyStr(input))
    case Summary(text) => Texts(true, text)
    case AssistantMessage(text, _, _) => Texts(false, text)
    case ToolUse(_, name, args) => [CallItem(name, if printed then OrEmpty(args) else args)]
    case ToolResult(id, _, _) =>
      [Returned(WireName(names, id), if printed then Str(PyStr(ResultContent(p))) else ResultContent(p))]
    case _ => []
  }

  function Items(events: seq<Event>, names: map<ToolId, string>, printed: bool): seq<Item> {
    if events == [] then []
    else
      Items(events[..|events| - 1], names, printed) + EventItems(events[|events| - 1].payload, names, printed)
  }

  /** The meaning of an effective stream. */
  function Meaning(events: seq<Event>): seq<Item> {
    Items(events, CallNames(events), false)
  }

  // ---- Reading an Anthropic request -----------------------------------------------------------------------

  function BlockItems(role: Role, b: Block, names: map<ToolId, string>): seq<Item> {
    match b
    case TextBlock(text) => Texts(role == User, text)
    case ToolUseBlock(_, name, input) => [CallItem(name, input)]
    case ToolResultBlock(id, content, _) => [Returned(WireName(names, id), content)]
  }

  function BlocksItems(role: Role, blocks: seq<Block>, names: map<ToolId, string>): seq<Item> {
    if blocks == [] then []
    else BlocksItems(role, blocks[..|blocks| - 1], names) + BlockItems(role, blocks[|blocks| - 1], names)
  }

  function MessageBlocks(m: Message): seq<Block> {
    match m.content
    case PlainText(text) => [TextBlock(text)]
    case Blocks(blocks) => blocks
  }

  function ReadMessages(messages: seq<Message>, names: map<ToolId, string>): seq<Item> {
    if messages == [] then []
    else
      var m := messages[|messages| - 1];
      ReadMessages(messages[..|messages| - 1], names) + BlocksItems(m.role, MessageBlocks(m), names)
  }

  function WithBlockName(names: map<ToolId, string>, b: Block): map<ToolId, string> {
    if b.ToolUseBlock? then names[b.id := b.name] else names
  }

  function NamesInBlocks(names: map<ToolId, string>, blocks: seq<Block>): map<ToolId, string> {
    if blocks == [] then names
    else WithBlockName(NamesInBlocks(names, blocks[..|blocks| - 1]), blocks[|blocks| - 1])
  }

  function NamesInMessages(messages: seq<Message>): map<ToolId, string> {
    if messages == [] then map[]
    else NamesInBlocks(NamesInMessages(messages[..|messages| - 1]), MessageBlocks(messages[|messages| - 1]))
  }

  /** The meaning read from an Anthropic request alone. */
  function ReadAnthropic(messages: seq<Message>): seq<Item> {
    ReadMessages(messages, NamesInMessages(messages))
  }

  /** The same, on the groups before their final form. */
  function ReadGroups(groups: seq<Group>, names: map<ToolId, string>): seq<Item> {
    if groups == [] then []
    else
      var g := groups[|groups| - 1];
      ReadGroups(groups[..|groups| - 1], names) + BlocksItems(g.role, g.blocks, names)
  }

  function NamesInGroups(groups: seq<Group>): map<ToolId, string> {
    if groups == [] then map[]
    else NamesInBlocks(NamesInGroups(groups[..|groups| - 1]), groups[|groups| - 1].blocks)
  }

  lemma FinalizeKeepsBlocks(g: Group)
    ensures MessageBlocks(Finalize(g)) == g.blocks && Finalize(g).role == g.role
  {
  }

  lemma {:induction false} FinalizeKeepsMeaning(groups: seq<Group>, names: map<ToolId, string>)
    ensures ReadMessages(FinalizeAll(groups), names) == ReadGroups(groups, names)
    ensures NamesInMessages(FinalizeAll(groups)) == NamesInGroups(groups)
  {
    if groups != [] {
      var n := |groups| - 1;
      FinalizeKeepsBlocks(groups[n]);
      assert FinalizeAll(groups)[..n] == FinalizeAll(groups[..n]);
      FinalizeKeepsMeaning(groups[..n], names);
    }
  }

  lemma BlocksItemsOne(role: Role, blocks: seq<Block>, b: Block, names: map<ToolId, string>)
    ensures BlocksItems(role, blocks + [b], names) == BlocksItems(role, blocks, names) + BlockItems(role, b, names)
  {
    assert (blocks + [b])[..|blocks|] == blocks;
  }

  lemma NamesInBlocksOne(names: map<ToolId, string>, blocks: seq<Block>, b: Block)
    ensures NamesInBlocks(names, blocks + [b]) == WithBlockName(NamesInBlocks(names, blocks), b)
  {
    assert (blocks + [b])[..|blocks|] == blocks;
  }

  lemma NoBlocks(role: Role, names: map<ToolId, string>, known: map<ToolId, string>)
    ensures BlocksItems(role, [], names) == [] && NamesInBlocks(known, []) == known
  {
  }

  /** Adding a one-block group, merged or not, adds that block's meaning at the end. */
  lemma AddGroupReads(groups: seq<Group>, g: Group, names: map<ToolId, string>)
    requires |g.blocks| == 1
    ensures ReadGroups(AddGroup(groups, g), names) == ReadGroups(groups, names) + BlockItems(g.role, g.blocks[0], names)
    ensures NamesInGroups(AddGroup(groups, g)) == WithBlockName(NamesInGroups(groups), g.blocks[0])
  {
    hide BlocksItems, NamesInBlocks, BlockItems, WithBlockName;
    var b := g.blocks[0];
    assert g.blocks == [b];
    NoBlocks(g.role, names, NamesInGroups(groups));
    var to := AddGroup(groups, g);
    var n := |to| - 1;
    if groups != [] && groups[|groups| - 1].role == g.role {
      var last := groups[n];
      assert to[..n] == groups[..n] && to[n] == Group(last.role, last.blocks + [b]);
      BlocksItemsOne(g.role, last.blocks, b, names);
      NamesInBlocksOne(NamesInGroups(groups[..n]), last.blocks, b);
      assert ReadGroups(groups[..n], names) + (BlocksItems(g.role, last.blocks, names) + BlockItems(g.role, b, names))
          == ReadGroups(groups, names) + BlockItems(g.role, b, names);
    } else {
      assert to[..n] == groups && to[n] == g;
      BlocksItemsOne(g.role, [], b, names);
      NamesInBlocksOne(NamesInGroups(groups), [], b);
      assert [] + [b] == [b];
      assert [] + BlockItems(g.role, b, names) == BlockItems(g.role, b, names);
    }
  }

  lemma TranslateReads(p: Payload, names: map<ToolId, string>, known: map<ToolId, string>)
    ensures Translate(p).None? ==> EventItems(p, names, false) == [] && !p.ToolUse?
    ensures Translate(p).Some? ==>
              var g := Translate(p).value;
              && |g.blocks| == 1
              && BlockItems(g.role, g.blocks[0], names) == EventItems(p, names, false)
              && WithBlockName(known, g.blocks[0]) == WithCallName(known, p)
  {
  }

  lemma {:induction false} GroupsRead(events: seq<Event>, names: map<ToolId, string>)
    ensures ReadGroups(Groups(events), names) == Items(events, names, false)
    ensures NamesInGroups(Groups(events)) == CallNames(events)
  {
    if events != [] {
      var init, p := events[..|events| - 1], events[|events| - 1].payload;
      GroupsRead(init, names);
      TranslateReads(p, names, CallNames(init));
      if Translate(p).Some? {
        AddGroupReads(Groups(init), Translate(p).value, names);
      } else {
        assert Items(init, names, false) + [] == Items(init, names, false);
      }
    }
  }

  /** An Anthropic request, read back alone, says what the stream says. */
  lemma AnthropicKeepsMeaning(events: seq<Event>)
    ensures ReadAnthropic(AnthropicMessages(events)) == Meaning(events)
  {
    GroupsRead(events, CallNames(events));
    FinalizeKeepsMeaning(Groups(events), CallNames(events));
  }

  /** Neighbouring messages of an Anthropic request have different roles. */
  lemma {:induction false} AnthropicRolesAlternate(events: seq<Event>)
    ensures var messages := AnthropicMessages(events);
            forall i :: 0 <= i < |messages| - 1 ==> messages[i].role != messages[i + 1].role
  {
    GroupRolesAlternate(events);
  }

  lemma {:induction false} GroupRolesAlternate(events: seq<Event>)
    ensures forall i :: 0 <= i < |Groups(events)| - 1 ==> Groups(events)[i].role != Groups(events)[i + 1].role
  {
    if events != [] {
      GroupRolesAlternate(events[..|events| - 1]);
    }
  }

  // ---- Reading an OpenAI request ---------------------------------------------------------------------------

  function CallItems(calls: seq<WireCall>): seq<Item> {
    if calls == [] then []
    else CallItems(calls[..|calls| - 1]) + [CallItem(calls[|calls| - 1].name, calls[|calls| - 1].arguments)]
  }

  function ChatItems(m: ChatMessage, names: map<ToolId, string>): seq<Item> {
    match m
    case UserChat(text) => Texts(true, text)
    case AssistantChat(content, calls) =>
      (if content.Some? then Texts(false, content.value) else []) + CallItems(calls)
    case ToolChat(id, result) => [Returned(WireName(names, id), Str(result))]
  }

  function ReadChats(messages: seq<ChatMessage>, names: map<ToolId, string>): seq<Item> {
    if messages == [] then []
    else ReadChats(messages[..|messages| - 1], names) + ChatItems(messages[|messages| - 1], names)
  }

  function NamesInCalls(names: map<ToolId, string>, calls: seq<WireCall>): map<ToolId, string> {
    if calls == [] then names
    else NamesInCalls(names, calls[..|calls| - 1])[calls[|calls| - 1].id := calls[|calls| - 1].name]
  }

  function WithChatNames(names: map<ToolId, string>, m: ChatMessage): map<ToolId, string> {
    if m.AssistantChat? then NamesInCalls(names, m.calls) else names
  }

  function NamesInChats(messages: seq<ChatMessage>): map<ToolId, string> {
    if messages == [] then map[]
    else WithChatNames(NamesInChats(messages[..|messages| - 1]), messages[|messages| - 1])
  }

  /** The meaning read from an OpenAI request alone. */
  function ReadOpenAI(messages: seq<ChatMessage>): seq<Item> {
    ReadChats(messages, NamesInChats(messages))
  }

  lemma ChatAppended(messages: seq<ChatMessage>, m: ChatMessage, names: map<ToolId, string>)
    ensures ReadChats(messages + [m], names) == ReadChats(messages, names) + ChatItems(m, names)
    ensures NamesInChats(messages + [m]) == WithChatNames(NamesInChats(messages), m)
  {
    assert (messages + [m])[..|messages|] == messages;
  }

  lemma CallAppended(calls: seq<WireCall>, call: WireCall, names: map<ToolId, string>)
    ensures CallItems(calls + [call]) == CallItems(calls) + [CallItem(call.name, call.arguments)]
    ensures NamesInCalls(names, calls + [call]) == NamesInCalls(names, calls)[call.id := call.name]
  {
    assert (calls + [call])[..|calls|] == calls;
  }

  lemma MergeReads(messages: seq<ChatMessage>, call: WireCall, names: map<ToolId, string>)
    ensures ReadChats(MergeToolUse(messages, call), names)
         == ReadChats(messages, names) + [CallItem(call.name, call.arguments)]
    ensures NamesInChats(MergeToolUse(messages, call)) == NamesInChats(messages)[call.id := call.name]
  {
    hide ReadChats, NamesInChats;
    if messages != [] && messages[|messages| - 1].AssistantChat? {
      var n := |messages| - 1;
      var prev := messages[n];
      var to := MergeToolUse(messages, call);
      CallAppended(prev.calls, call, NamesInChats(messages[..n]));
      assert messages == messages[..n] + [prev] && to == messages[..n] + [to[n]];
      ChatAppended(messages[..n], prev, names);
      ChatAppended(messages[..n], to[n], names);
      var text := if prev.content.Some? then Texts(false, prev.content.value) else [];
      var added := [CallItem(call.name, call.arguments)];
      assert ChatItems(to[n], names) == text + (CallItems(prev.calls) + added);
      assert text + (CallItems(prev.calls) + added) == ChatItems(prev, names) + added;
      assert ReadChats(messages[..n], names) + (ChatItems(prev, names) + added)
          == ReadChats(messages[..n], names) + ChatItems(prev, names) + added;
    } else {
      ChatAppended(messages, AssistantChat(None, [call]), names);
      CallAppended([], call, NamesInChats(messages));
      assert [] + [call] == [call];
      assert [] + [CallItem(call.name, call.arguments)] == [CallItem(call.name, call.arguments)];
    }
  }

  lemma {:induction false} ChatsRead(events: seq<Event>, names: map<ToolId, string>)
    ensures ReadChats(OpenAIMessages(events), names) == Items(events, names, true)
    ensures NamesInChats(OpenAIMessages(events)) == CallNames(events)
  {
    if events != [] {
      var init, p := events[..|events| - 1], events[|events| - 1].payload;
      ChatsRead(init, names);
      ChatStep(OpenAIMessages(init), p, names);
    }
  }

  lemma ChatStep(messages: seq<ChatMessage>, p: Payload, names: map<ToolId, string>)
    ensures ReadChats(AppendChat(messages, p), names) == ReadChats(messages, names) + EventItems(p, names, true)
    ensures NamesInChats(AppendChat(messages, p)) == WithCallName(NamesInChats(messages), p)
  {
    hide ReadChats, NamesInChats, MergeToolUse, WireName, Repr;
    if p.UserMessage? {
      ChatAppended(messages, UserChat(PyStr(p.input)), names);
    } else if p.Summary? {
      ChatAppended(messages, UserChat(p.text), names);
    } else if p.AssistantMessage? {
      ChatAppended(messages, AssistantChat(Some(p.text), []), names);
      assert NamesInCalls(NamesInChats(messages), []) == NamesInChats(messages);
      assert Texts(false, p.text) + CallItems([]) == Texts(false, p.text);
    } else if p.ToolUse? {
      MergeReads(messages, WireCall(p.id, p.name, OrEmpty(p.arguments)), names);
    } else if p.ToolResult? {
      var result := if Truthy(p.error) then p.error.value else PyStr(Shown(p.output));
      ChatAppended(messages, ToolChat(p.toolUseId, result), names);
    } else {
      assert ReadChats(messages, names) + [] == ReadChats(messages, names);
    }
  }

  lemma OpenAIReads(events: seq<Event>)
    ensures ReadOpenAI(OpenAIMessages(events)) == Items(events, CallNames(events), true)
  {
    ChatsRead(events, CallNames(events));
  }

  // ---- Reading a Gemini request ----------------------------------------------------------------------------

  function PartItems(model: bool, part: Part): seq<Item> {
    match part
    case TextPart(text) => Texts(!model, text)
    case FunctionCall(name, args) => [CallItem(name, args)]
    case FunctionResponse(name, content, _) => [Returned(name, Str(content))]
  }

  function PartsItems(model: bool, parts: seq<Part>): seq<Item> {
    if parts == [] then []
    else PartsItems(model, parts[..|parts| - 1]) + PartItems(model, parts[|parts| - 1])
  }

  /** The meaning read from a Gemini request alone, which names the call of each response itself. */
  function ReadGemini(contents: seq<Turn>): seq<Item> {
    if contents == [] then []
    else
      var last := contents[|contents| - 1];
      ReadGemini(contents[..|contents| - 1]) + PartsItems(last.model, last.parts)
  }

  lemma TurnAppended(contents: seq<Turn>, t: Turn)
    ensures ReadGemini(contents + [t]) == ReadGemini(contents) + PartsItems(t.model, t.parts)
  {
    assert (contents + [t])[..|contents|] == contents;
  }

  lemma PartAppended(model: bool, parts: seq<Part>, part: Part)
    ensures PartsItems(model, parts + [part]) == PartsItems(model, parts) + PartItems(model, part)
    ensures PartsItems(model, [part]) == PartItems(model, part)
  {
    assert (parts + [part])[..|parts|] == parts;
    assert [part][..0] == [];
    assert [] + PartItems(model, part) == PartItems(model, part);
  }

  lemma FunctionCallReads(contents: seq<Turn>, name: string, args: Json)
    ensures ReadGemini(AppendFunctionCall(contents, FunctionCall(name, args)))
         == ReadGemini(contents) + [CallItem(name, args)]
  {
    hide ReadGemini, PartsItems;
    var part := FunctionCall(name, args);
    if contents != [] && contents[|contents| - 1].model {
      var n := |contents| - 1;
      var prev := contents[n];
      var next := prev.(parts := prev.parts + [part]);
      assert contents == contents[..n] + [prev];
      assert AppendFunctionCall(contents, part) == contents[..n] + [next];
      TurnAppended(contents[..n], prev);
      TurnAppended(contents[..n], next);
      PartAppended(true, prev.parts, part);
      assert ReadGemini(contents[..n]) + (PartsItems(true, prev.parts) + PartItems(true, part))
          == ReadGemini(contents[..n]) + PartsItems(true, prev.parts) + PartItems(true, part);
    } else {
      TurnAppended(contents, Turn(true, [part]));
      PartAppended(true, [], part);
    }
  }

  lemma TextTurnReads(contents: seq<Turn>, model: bool, text: string)
    ensures ReadGemini(contents + [Turn(model, TextParts(text))]) == ReadGemini(contents) + Texts(!model, text)
  {
    TurnAppended(contents, Turn(model, TextParts(text)));
    if text != "" { PartAppended(model, [], TextPart(text)); }
  }

  lemma ResponseReads(contents: seq<Turn>, name: Json, content: string, isError: bool)
    ensures ReadGemini(contents + [Turn(false, [FunctionResponse(name, content, isError)])])
         == ReadGemini(contents) + [Returned(name, Str(content))]
  {
    var part := FunctionResponse(name, content, isError);
    TurnAppended(contents, Turn(false, [part]));
    PartAppended(false, [], part);
  }

  lemma GeminiStep(contents: seq<Turn>, p: Payload, names: map<ToolId, string>)
    ensures ReadGemini(AppendGemini(contents, names, p)) == ReadGemini(contents) + EventItems(p, names, true)
  {
    if p.UserMessage? {
      TextTurnReads(contents, false, PyStr(p.input));
    } else if p.Summary? {
      TextTurnReads(contents, false, p.text);
    } else if p.AssistantMessage? && p.text != "" {
      TextTurnReads(contents, true, p.text);
    } else if p.ToolUse? {
      FunctionCallReads(contents, p.name, OrEmpty(p.arguments));
    } else if p.ToolResult? {
      var content := if Truthy(p.error) then p.error.value else PyStr(Shown(p.output));
      ResponseReads(contents, WireName(names, p.toolUseId), content, Truthy(p.error));
    } else {
      assert ReadGemini(contents) + [] == ReadGemini(contents);
    }
  }

  lemma {:induction false} GeminiReadsWith(events: seq<Event>, names: map<ToolId, string>)
    ensures ReadGemini(GeminiWith(events, names)) == Items(events, names, true)
  {
    if events != [] {
      var init := events[..|events| - 1];
      GeminiReadsWith(init, names);
      GeminiStep(GeminiWith(init, names), events[|events| - 1].payload, names);
    }
  }

  lemma GeminiReads(events: seq<Event>)
    ensures ReadGemini(GeminiContents(events)) == Items(events, CallNames(events), true)
  {
    GeminiReadsWith(events, CallNames(events));
  }

  // ---- The three requests agree ------------------------------------------------------------------------------

  /** A result that has an error text, a text as its output, or no output; the runner and the loop write no other. */
  predicate HasContent(p: Payload) {
    p.ToolResult? ==> Truthy(p.error) || p.output.None? || p.output.value.Str?
  }

  /** A call whose arguments do not count as false, unless they are an empty dictionary. */
  predicate HasArguments(p: Payload) {
    p.ToolUse? ==> !FalsyNonDict(p.arguments)
  }

  predicate AllSayable(events: seq<Event>) {
    forall e :: e in events ==> HasContent(e.payload) && HasArguments(e.payload)
  }

  lemma {:induction false} PrintingChangesNothing(events: seq<Event>, names: map<ToolId, string>)
    ensures |Items(events, names, false)| == |Items(events, names, true)|
    ensures Items(events, names, true) == Items(events, names, false) <==> AllSayable(events)
  {
    if events != [] {
      var init, e := events[..|events| - 1], events[|events| - 1];
      PrintingChangesNothing(init, names);
      assert events == init + [e];
      var a, b := Items(init, names, true), Items(init, names, false);
      var c, d := EventItems(e.payload, names, true), EventItems(e.payload, names, false);
      PrintingOne(e.payload, names);
      assert (a + c)[..|a|] == a && (b + d)[..|b|] == b && (a + c)[|a|..] == c && (b + d)[|b|..] == d;
    }
  }

  lemma PrintingOne(p: Payload, names: map<ToolId, string>)
    ensures |EventItems(p, names, true)| == |EventItems(p, names, false)|
    ensures EventItems(p, names, true) == EventItems(p, names, false) <==> HasContent(p) && HasArguments(p)
  {
    if p.ToolUse? {
      assert EventItems(p, names, true)[0].arguments == EventItems(p, names, false)[0].arguments
             <==> !FalsyNonDict(p.arguments);
    } else if p.ToolResult? {
      assert EventItems(p, names, true)[0].content == EventItems(p, names, false)[0].content <==> HasContent(p);
    }
  }

  /**
    Read back alone, the Anthropic request always says what the stream says; the OpenAI and the Gemini request
    say the same as each other, and the same as the stream exactly when every result has an error text, an
    output that is a text, or none, and no call has false arguments that are no dictionary.
    */
  lemma ThreeRequestsOneMeaning(events: seq<Event>)
    ensures ReadAnthropic(AnthropicMessages(events)) == Meaning(events)
    ensures ReadOpenAI(OpenAIMessages(events)) == ReadGemini(GeminiContents(events))
    ensures ReadOpenAI(OpenAIMessages(events)) == Meaning(events) <==> AllSayable(events)
  {
    AnthropicKeepsMeaning(events);
    OpenAIReads(events);
    GeminiReads(events);
    PrintingChangesNothing(events, CallNames(events));
  }

  /** A call with null arguments is sent as null to one provider and as an empty object to the other two. */
  lemma NullArgumentsDiffer(id: ToolId)
    ensures var events := [Event(0, ToolUse(id, "f", Null))];
            && ReadAnthropic(AnthropicMessages(events)) == [CallItem("f", Null)]
            && ReadOpenAI(OpenAIMessages(events)) == [CallItem("f", EMPTY_DICT)]
            && ReadGemini(GeminiContents(events)) == [CallItem("f", EMPTY_DICT)]
  {
    var events := [Event(0, ToolUse(id, "f", Null))];
    ThreeRequestsOneMeaning(events);
    OpenAIReads(events);
    ItemsOfOne(events[0], CallNames(events));
  }

  /** An output that is no text is sent as it is to one provider and printed to the other two. */
  lemma OtherOutputDiffers(id: ToolId, output: Json)
    requires !output.Str?
    ensures var events := [Event(0, ToolResult(id, Some(output), None))];
            && ReadAnthropic(AnthropicMessages(events)) == [Returned(IdValue(id), output)]
            && ReadOpenAI(OpenAIMessages(events)) == [Returned(IdValue(id), Str(PyStr(output)))]
            && ReadGemini(GeminiContents(events)) == [Returned(IdValue(id), Str(PyStr(output)))]
  {
    var events := [Event(0, ToolResult(id, Some(output), None))];
    ThreeRequestsOneMeaning(events);
    OpenAIReads(events);
    ItemsOfOne(events[0], CallNames(events));
    assert events[..0] == [];
    assert CallNames(events) == map[];
  }

  /** Null is printed as a word, and a number in digits. */
  lemma NullAndNumberDiffer(id: ToolId)
    ensures ReadAnthropic(AnthropicMessages([Event(0, ToolResult(id, Some(Null), None))]))
         == [Returned(IdValue(id), Null)]
    ensures ReadOpenAI(OpenAIMessages([Event(0, ToolResult(id, Some(Null), None))]))
         == [Returned(IdValue(id), Str("None"))]
    ensures ReadAnthropic(AnthropicMessages([Event(0, ToolResult(id, Some(Int(5)), None))]))
         == [Returned(IdValue(id), Int(5))]
    ensures ReadOpenAI(OpenAIMessages([Event(0, ToolResult(id, Some(Int(5)), None))]))
         == [Returned(IdValue(id), Str("5"))]
  {
    OtherOutputDiffers(id, Null);
    OtherOutputDiffers(id, Int(5));
  }

  lemma ItemsOfOne(e: Event, names: map<ToolId, string>)
    ensures Items([e], names, false) == EventItems(e.payload, names, false)
    ensures Items([e], names, true) == EventItems(e.payload, names, true)
  {
    assert [e][..0] == [];
  }

  // ---- On reachable logs ---------------------------------------------------------------------------------------

  lemma {:induction false} NamesOfCalls(events: seq<Event>, id: ToolId)
    ensures id in CallNames(events) <==> exists e :: e in events && e.payload.ToolUse? && e.payload.id == id
    ensures id in CallNames(events) ==>
              exists e :: e in events && e.payload.ToolUse? && e.payload.id == id
                          && e.payload.name == CallNames(events)[id]
  {
    if events != [] {
      var init, e := events[..|events| - 1], events[|events| - 1];
      assert events == init + [e];
      NamesOfCalls(init, id);
    }
  }

  /** In a reachable log every result still shown is named after its own call, never after its id. */
  lemma ResultsCarryTheirCallsName(log: seq<Event>, i: int, j: int, id: ToolId)
    requires Reachable(log) && IsUse(log, i, id) && IsResult(log, j, id)
    ensures Apply(log).Success?
    ensures log[j] in Apply(log).value ==>
              id in CallNames(Apply(log).value)
              && WireName(CallNames(Apply(log).value), id) == Str(log[i].payload.name)
  {
    ReachableInv(log);
    ApplySucceeds(log);
    var stream := Apply(log).value;
    PairsStayWhole(log, i, id);
    NamesOfCalls(stream, id);
    if log[j] in stream {
      assert log[i] in stream;
      var e :| e in stream && e.payload.ToolUse? && e.payload.id == id && e.payload.name == CallNames(stream)[id];
      RenderedEvents(log, Live(log), e);
      var k :| 0 <= k < |log| && log[k] == e;
      assert IsUse(log, k, id);
    }
  }
}
