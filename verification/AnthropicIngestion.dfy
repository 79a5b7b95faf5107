/** A whole Anthropic response turned into events, and the same response cut into a stream. */
module AnthropicIngestion {
  import opened Wrappers
  import opened JsonValues
  import opened Events
  import opened Sorting
  import opened StreamEvents
  import opened AnthropicStreams
  import opened AnthropicLaws
  import opened Text

  /** A content block of a response; `input` is absent, null or a value. */
  datatype ContentBlock =
    | TextContent(text: string)
    | ToolContent(id: ToolId, name: string, input: Json)
    | OtherContent(kind: string)

  function ContentTexts(content: seq<ContentBlock>): seq<string> {
    if content == [] then []
    else
      var b := content[|content| - 1];
      ContentTexts(content[..|content| - 1]) + (if b.TextContent? then [b.text] else [])
  }

  function ContentUses(content: seq<ContentBlock>): seq<StreamEvent> {
    if content == [] then []
    else
      var b := content[|content| - 1];
      ContentUses(content[..|content| - 1]) + (if b.ToolContent? then [Use(b.id, b.name, OrEmpty(b.input))] else [])
  }

  /** The events of a whole message. */
  function IngestedMessage(content: seq<ContentBlock>, stopReason: string): (r: seq<StreamEvent>)
    ensures forall e :: e in r ==> IsDurable(e)
  {
    UsesAreDurable(content);
    [Message(Concat(ContentTexts(content)), StopReason(stopReason))] + ContentUses(content)
  }

  lemma {:induction false} UsesAreDurable(content: seq<ContentBlock>)
    ensures forall e :: e in ContentUses(content) ==> IsDurable(e)
  {
    if content != [] { UsesAreDurable(content[..|content| - 1]); }
  }

  method Ingest(content: seq<ContentBlock>, stopReason: string) returns (events: seq<StreamEvent>)
    ensures events == IngestedMessage(content, stopReason)
  {
    var text := "";
    var i := 0;
    while i < |content|
      invariant 0 <= i <= |content| && text == Concat(ContentTexts(content[..i]))
    {
      assert content[..i + 1][..i] == content[..i];
      if content[i].TextContent? {
        NextPart(ContentTexts(content[..i]), content[i].text);
        text := text + content[i].text;
      } else {
        assert ContentTexts(content[..i]) + [] == ContentTexts(content[..i]);
      }
      i := i + 1;
    }
    assert content[..i] == content;
    events := [Message(text, StopReason(stopReason))];
    i := 0;
    while i < |content|
      invariant 0 <= i <= |content|
      invariant events == [Message(text, StopReason(stopReason))] + ContentUses(content[..i])
    {
      assert content[..i + 1][..i] == content[..i];
      if content[i].ToolContent? {
        events := events + [Use(content[i].id, content[i].name, OrEmpty(content[i].input))];
      } else {
        assert ContentUses(content[..i]) + [] == ContentUses(content[..i]);
      }
      i := i + 1;
    }
    assert content[..i] == content;
  }

  // ---- Cutting a response into frames ------------------------------------------------------------------------

  /** A block of the response, its text or its argument JSON cut into chunks. */
  datatype CutBlock = CutText(pieces: seq<string>) | CutTool(id: ToolId, name: string, pieces: seq<string>)

  function Deltas(index: int, pieces: seq<string>, text: bool): seq<Frame> {
    if pieces == [] then []
    else
      var p := pieces[|pieces| - 1];
      Deltas(index, pieces[..|pieces| - 1], text)
      + [BlockDelta(index, if text then TextPiece(p) else ArgumentPiece(p))]
  }

  function BlockFrames(index: int, b: CutBlock): seq<Frame> {
    match b
    case CutText(pieces) => [BlockStart(index, "text", "", "")] + Deltas(index, pieces, true) + [BlockStop(index)]
    case CutTool(id, name, pieces) =>
      [BlockStart(index, "tool_use", SentId(id), name)] + Deltas(index, pieces, false) + [BlockStop(index)]
  }

  function AllBlocks(blocks: seq<CutBlock>): seq<Frame> {
    if blocks == [] then [MessageStart]
    else AllBlocks(blocks[..|blocks| - 1]) + BlockFrames(|blocks| - 1, blocks[|blocks| - 1])
  }

  function Streamed(blocks: seq<CutBlock>, stopReason: string): seq<Frame> {
    AllBlocks(blocks) + [MessageDelta(stopReason)] + [MessageStop]
  }

  /** A tool has an id and a name, and its argument JSON came in no piece at all or makes up a JSON object. */
  predicate WellFormed(loads: Loads, b: CutBlock) {
    b.CutTool? ==> !IsFalse(b.id) && b.name != "" && (b.pieces == [] || IsObject(loads, Concat(b.pieces)))
  }

  /** The arguments of a well-formed tool. */
  function Arguments(loads: Loads, pieces: seq<string>): (r: Json)
    requires pieces != [] ==> IsObject(loads, Concat(pieces))
    ensures r.Dict?
  {
    if pieces == [] then EMPTY_DICT else loads(Concat(pieces)).value
  }

  /** The block as the whole response holds it. */
  function Whole(loads: Loads, b: CutBlock): ContentBlock
    requires WellFormed(loads, b)
  {
    match b
    case CutText(pieces) => TextContent(Concat(pieces))
    case CutTool(id, name, pieces) => ToolContent(id, name, Arguments(loads, pieces))
  }

  function WholeAll(loads: Loads, blocks: seq<CutBlock>): (r: seq<ContentBlock>)
    requires forall b :: b in blocks ==> WellFormed(loads, b)
    ensures |r| == |blocks|
  {
    if blocks == [] then [] else WholeAll(loads, blocks[..|blocks| - 1]) + [Whole(loads, blocks[|blocks| - 1])]
  }

  // ---- Running the cut response ------------------------------------------------------------------------------

  lemma {:induction false} StepsConcat(loads: Loads, from: Stepped<State>, a: seq<Frame>, b: seq<Frame>)
    ensures StepsFrom(loads, from, a + b) == StepsFrom(loads, StepsFrom(loads, from, a), b)
  {
    if b == [] {
      assert a + b == a;
    } else {
      assert (a + b)[..|a + b| - 1] == a + b[..|b| - 1];
      StepsConcat(loads, from, a, b[..|b| - 1]);
    }
  }

  lemma NoStep(loads: Loads, from: Stepped<State>)
    ensures StepsFrom(loads, from, []) == from
  {
  }

  lemma OneStep(loads: Loads, s: State, frame: Frame)
    ensures StepsFrom(loads, Next(s), [frame]) == Step(loads, s, frame)
  {
    assert [frame][..0] == [];
  }

  lemma {:induction false} TextDeltasRun(loads: Loads, s: State, index: int, pieces: seq<string>)
    requires Active(s) && index in s.open && s.open[index] == "text"
    ensures var r := StepsFrom(loads, Next(s), Deltas(index, pieces, true));
            && r.Next? && r.state == s.(events := r.state.events, textParts := r.state.textParts)
            && Concat(r.state.textParts) == Concat(s.textParts) + Concat(pieces)
  {
    if pieces != [] {
      var init, p := pieces[..|pieces| - 1], pieces[|pieces| - 1];
      TextDeltasRun(loads, s, index, init);
      var before := StepsFrom(loads, Next(s), Deltas(index, init, true)).state;
      var frame := BlockDelta(index, TextPiece(p));
      StepsConcat(loads, Next(s), Deltas(index, init, true), [frame]);
      OneStep(loads, before, frame);
      NextPart(before.textParts, p);
      assert p == "" ==> Concat(init) + p == Concat(init);
    }
  }

  lemma {:induction false} ArgumentDeltasRun(loads: Loads, s: State, index: int, pieces: seq<string>)
    requires Active(s) && index in s.open && index in s.tools.byIndex
    ensures var r := StepsFrom(loads, Next(s), Deltas(index, pieces, false));
            var tool := s.tools.byIndex[index];
            && r.Next?
            && r.state == s.(events := r.state.events,
                             tools := s.tools.Put(index, tool.(chunks := tool.chunks + pieces)))
  {
    hide StepsFrom;
    var tool := s.tools.byIndex[index];
    if pieces == [] {
      NoStep(loads, Next(s));
      assert tool.chunks + pieces == tool.chunks;
      assert s.tools.byIndex[index := tool] == s.tools.byIndex;
    } else {
      var init, p := pieces[..|pieces| - 1], pieces[|pieces| - 1];
      ArgumentDeltasRun(loads, s, index, init);
      var before := StepsFrom(loads, Next(s), Deltas(index, init, false)).state;
      var frame := BlockDelta(index, ArgumentPiece(p));
      StepsConcat(loads, Next(s), Deltas(index, init, false), [frame]);
      OneStep(loads, before, frame);
      assert tool.chunks + init + [p] == tool.chunks + pieces;
      var t1, t2 := tool.(chunks := tool.chunks + init), tool.(chunks := tool.chunks + pieces);
      assert s.tools.byIndex[index := t1][index := t2] == s.tools.byIndex[index := t2];
    }
  }

  lemma {:induction false} RaisedSticks(loads: Loads, from: Stepped<State>, frames: seq<Frame>)
    requires from.Raised?
    ensures StepsFrom(loads, from, frames) == from
  {
    if frames != [] { RaisedSticks(loads, from, frames[..|frames| - 1]); }
  }

  /** A block is its start, its deltas and its stop. */
  lemma BlockSteps(loads: Loads, s: State, start: Frame, deltas: seq<Frame>, stop: Frame)
    ensures StepsFrom(loads, Next(s), [start] + deltas + [stop])
         == StepsFrom(loads, StepsFrom(loads, Step(loads, s, start), deltas), [stop])
  {
    StepsConcat(loads, Next(s), [start] + deltas, [stop]);
    StepsConcat(loads, Next(s), [start], deltas);
    OneStep(loads, s, start);
  }

  lemma TextBlockRuns(loads: Loads, s: State, index: int, pieces: seq<string>)
    requires Active(s) && s.open == map[] && index !in s.tools.byIndex
    ensures var r := StepsFrom(loads, Next(s), BlockFrames(index, CutText(pieces)));
            && r.Next? && r.state == s.(events := r.state.events, textParts := r.state.textParts)
            && Concat(r.state.textParts) == Concat(s.textParts) + Concat(pieces)
  {
    hide StepsFrom, Deltas;
    var begun := Step(loads, s, BlockStart(index, "text", "", "")).state;
    BlockSteps(loads, s, BlockStart(index, "text", "", ""), Deltas(index, pieces, true), BlockStop(index));
    TextDeltasRun(loads, begun, index, pieces);
    var filled := StepsFrom(loads, Next(begun), Deltas(index, pieces, true)).state;
    OneStep(loads, filled, BlockStop(index));
    assert filled.open - {index} == map[];
  }

  lemma ToolBlockRuns(loads: Loads, s: State, index: int, id: string, name: string, pieces: seq<string>)
    requires Active(s) && s.open == map[] && index !in s.tools.byIndex
    ensures var r := StepsFrom(loads, Next(s), BlockFrames(index, CutTool(TextId(id), name, pieces)));
            if !WellFormed(loads, CutTool(TextId(id), name, pieces)) then r.Raised?
            else
              var tool := Tool(id, name, pieces, Arguments(loads, pieces), true);
              r.Next? && r.state == s.(events := r.state.events, tools := s.tools.Put(index, tool))
  {
    hide StepsFrom, Deltas, Concat;
    var start := BlockStart(index, "tool_use", id, name);
    var begun := Step(loads, s, start).state;
    BlockSteps(loads, s, start, Deltas(index, pieces, false), BlockStop(index));
    if id == "" || name == "" {
      RaisedSticks(loads, Step(loads, s, start), Deltas(index, pieces, false));
      RaisedSticks(loads, Step(loads, s, start), [BlockStop(index)]);
      return;
    }
    ArgumentDeltasRun(loads, begun, index, pieces);
    var filled := StepsFrom(loads, Next(begun), Deltas(index, pieces, false)).state;
    OneStep(loads, filled, BlockStop(index));
    assert [] + pieces == pieces;
    var empty, full := Tool(id, name, [], EMPTY_DICT, true), Tool(id, name, pieces, EMPTY_DICT, true);
    assert filled.tools.byIndex == s.tools.byIndex[index := full];
    assert filled.tools.order == s.tools.order + [index];
    assert filled.open - {index} == map[];
    var parsed := ParseArguments(loads, pieces);
    if parsed.Some? {
      var done := Tool(id, name, pieces, parsed.value, true);
      assert s.tools.byIndex[index := full][index := done] == s.tools.byIndex[index := done];
    }
  }

  /** After the first blocks the machine holds what the ingestor makes of them. */
  ghost predicate Holds(loads: Loads, s: State, blocks: seq<CutBlock>)
    requires forall b :: b in blocks ==> WellFormed(loads, b)
  {
    && s.started && !s.stopped && !s.stopSeen && s.open == map[]
    && Concat(s.textParts) == Concat(ContentTexts(WholeAll(loads, blocks)))
    && s.tools.Valid() && Ascending(s.tools.order)
    && (forall k :: 0 <= k < |s.tools.order| ==> s.tools.order[k] < |blocks| && s.tools.order[k] in s.tools.byIndex)
    && UsesOf(s.tools.byIndex, s.tools.order) == ContentUses(WholeAll(loads, blocks))
  }

  lemma {:induction false} UsesOfOthers(tools: map<int, Tool>, indexes: seq<int>, index: int, tool: Tool)
    requires forall k :: 0 <= k < |indexes| ==> indexes[k] in tools && indexes[k] != index
    ensures UsesOf(tools[index := tool], indexes) == UsesOf(tools, indexes)
  {
    if indexes != [] { UsesOfOthers(tools, indexes[..|indexes| - 1], index, tool); }
  }

  lemma UsesOfPut(table: ToolTable, index: int, tool: Tool)
    requires forall k :: 0 <= k < |table.order| ==> table.order[k] in table.byIndex && table.order[k] != index
    requires index !in table.byIndex
    ensures forall k :: 0 <= k < |table.order| + 1 ==>
              table.Put(index, tool).order[k] in table.Put(index, tool).byIndex
    ensures UsesOf(table.Put(index, tool).byIndex, table.Put(index, tool).order)
         == UsesOf(table.byIndex, table.order) + [UseOf(tool)]
  {
    var order := table.order;
    UsesOfOthers(table.byIndex, order, index, tool);
    assert (order + [index])[..|order|] == order;
  }

  lemma ObjectStays(v: Json)
    requires v.Dict?
    ensures OrEmpty(v) == v
  {
  }

  lemma WholeNext(loads: Loads, blocks: seq<CutBlock>, b: CutBlock)
    requires (forall x :: x in blocks ==> WellFormed(loads, x)) && WellFormed(loads, b)
    ensures forall x :: x in blocks + [b] ==> WellFormed(loads, x)
    ensures var content, whole := WholeAll(loads, blocks), WholeAll(loads, blocks + [b]);
            && ContentTexts(whole)
               == (if b.CutText? then ContentTexts(content) + [Concat(b.pieces)] else ContentTexts(content))
            && ContentUses(whole)
               == (if b.CutText? then ContentUses(content)
                   else ContentUses(content) + [Use(b.id, b.name, Arguments(loads, b.pieces))])
  {
    hide Concat, IsObject, Arguments, OrEmpty;
    var content := WholeAll(loads, blocks);
    if b.CutTool? { ObjectStays(Arguments(loads, b.pieces)); }
    assert (blocks + [b])[..|blocks|] == blocks;
    assert (content + [Whole(loads, b)])[..|blocks|] == content;
  }

  lemma TextHolds(loads: Loads, s: State, to: State, blocks: seq<CutBlock>, pieces: seq<string>)
    requires (forall x :: x in blocks ==> WellFormed(loads, x)) && Holds(loads, s, blocks)
    requires to == s.(events := to.events, textParts := to.textParts)
    requires Concat(to.textParts) == Concat(s.textParts) + Concat(pieces)
    ensures forall x :: x in blocks + [CutText(pieces)] ==> WellFormed(loads, x)
    ensures Holds(loads, to, blocks + [CutText(pieces)])
  {
    hide ContentTexts, ContentUses, WholeAll, Concat, UsesOf;
    WholeNext(loads, blocks, CutText(pieces));
    NextPart(ContentTexts(WholeAll(loads, blocks)), Concat(pieces));
  }

  lemma ToolHolds(loads: Loads, s: State, to: State, blocks: seq<CutBlock>, b: CutBlock)
    requires (forall x :: x in blocks ==> WellFormed(loads, x)) && Holds(loads, s, blocks)
    requires b.CutTool? && b.id.TextId? && WellFormed(loads, b)
    requires var tool := Tool(b.id.text, b.name, b.pieces, Arguments(loads, b.pieces), true);
             to == s.(events := to.events, tools := s.tools.Put(|blocks|, tool))
    ensures forall x :: x in blocks + [b] ==> WellFormed(loads, x)
    ensures Holds(loads, to, blocks + [b])
  {
    hide ContentTexts, ContentUses, WholeAll, Concat, UsesOf, Arguments, IsObject, OrEmpty;
    var tool := Tool(b.id.text, b.name, b.pieces, Arguments(loads, b.pieces), true);
    OrderNext(s.tools, |blocks|, tool);
    WholeNext(loads, blocks, b);
    UsesOfPut(s.tools, |blocks|, tool);
  }

  /** A tool under an index above all others stays last. */
  lemma OrderNext(table: ToolTable, index: int, tool: Tool)
    requires table.Valid() && Ascending(table.order) && forall k :: 0 <= k < |table.order| ==> table.order[k] < index
    ensures index !in table.byIndex
    ensures table.Put(index, tool).Valid() && Ascending(table.Put(index, tool).order)
    ensures var to := table.Put(index, tool);
            forall k :: 0 <= k < |table.order| + 1 ==> to.order[k] < index + 1 && to.order[k] in to.byIndex
  {
    assert index !in table.order;
    PutKeepsValid(table, index, tool);
  }

  lemma NextBlockHolds(loads: Loads, s: State, blocks: seq<CutBlock>, b: CutBlock)
    requires forall x :: x in blocks ==> WellFormed(loads, x)
    requires Holds(loads, s, blocks) && (b.CutTool? ==> b.id.TextId?)
    ensures var r := StepsFrom(loads, Next(s), BlockFrames(|blocks|, b));
            if !WellFormed(loads, b) then r.Raised?
            else
              && r.Next? && (forall x :: x in blocks + [b] ==> WellFormed(loads, x))
              && Holds(loads, r.state, blocks + [b])
  {
    hide StepsFrom, ContentTexts, ContentUses, WholeAll, Concat, UsesOf, BlockFrames;
    assert |blocks| !in s.tools.order;
    var to := StepsFrom(loads, Next(s), BlockFrames(|blocks|, b)).state;
    if b.CutText? {
      TextBlockRuns(loads, s, |blocks|, b.pieces);
      TextHolds(loads, s, to, blocks, b.pieces);
    } else {
      ToolBlockRuns(loads, s, |blocks|, b.id.text, b.name, b.pieces);
      if WellFormed(loads, b) { ToolHolds(loads, s, to, blocks, b); }
    }
  }

  predicate TextIds(blocks: seq<CutBlock>) {
    forall b :: b in blocks && b.CutTool? ==> b.id.TextId?
  }

  lemma NoBlocksRun(loads: Loads)
    ensures var r := Steps(loads, [MessageStart]); r.Next? && Holds(loads, r.state, [])
  {
    OneStep(loads, INITIAL, MessageStart);
  }

  lemma {:induction false} BlocksRun(loads: Loads, blocks: seq<CutBlock>)
    requires TextIds(blocks)
    ensures var r := Steps(loads, AllBlocks(blocks));
            if forall b :: b in blocks ==> WellFormed(loads, b) then r.Next? && Holds(loads, r.state, blocks)
            else r.Raised?
  {
    hide StepsFrom, Holds, BlockFrames;
    if blocks == [] {
      NoBlocksRun(loads);
    } else {
      var n := |blocks| - 1;
      var init, b := blocks[..n], blocks[n];
      assert blocks == init + [b];
      BlocksRun(loads, init);
      StepsConcat(loads, Next(INITIAL), AllBlocks(init), BlockFrames(n, b));
      var before := Steps(loads, AllBlocks(init));
      if before.Raised? {
        RaisedSticks(loads, before, BlockFrames(n, b));
      } else {
        NextBlockHolds(loads, before.state, init, b);
      }
    }
  }

  /** The log keeps the message and the uses, and the uses of an ascending table are in its own order. */
  lemma KeptAtEnd(loads: Loads, frames: seq<Frame>, order: seq<int>)
    requires Emission(loads, frames, None).1
    requires Steps(loads, frames).state.tools.order == order && Ascending(order)
    ensures var s := Steps(loads, frames).state;
            && s.tools.Valid() && (forall k :: 0 <= k < |order| ==> order[k] in s.tools.byIndex)
            && Kept(Emission(loads, frames, None).0)
               == [Message(Concat(s.textParts), s.stop)] + UsesOf(s.tools.byIndex, order)
  {
    hide StepsFrom, Kept, Sorted, UsesOf, Concat, Texts;
    var s := Steps(loads, frames).state;
    StepsKeepTable(loads, frames);
    StepsEmitProgress(loads, frames);
    AscendingIsSorted(order);
    KeptAfterProgress(s.events, s.textParts, s.stop, Uses(s.tools));
  }

  /** The events of the whole response. */
  function Ingested(loads: Loads, blocks: seq<CutBlock>, stopReason: string): seq<StreamEvent>
    requires forall b :: b in blocks ==> WellFormed(loads, b)
  {
    IngestedMessage(WholeAll(loads, blocks), stopReason)
  }

  lemma TextIdsStream(loads: Loads, blocks: seq<CutBlock>, stopReason: string)
    requires TextIds(blocks)
    ensures var (events, ok) := Emission(loads, Streamed(blocks, stopReason), None);
            && (ok <==> stopReason != "" && forall b :: b in blocks ==> WellFormed(loads, b))
            && (ok ==> Kept(events) == Ingested(loads, blocks, stopReason))
  {
    hide StepsFrom, Kept, Sorted, UsesOf, Concat, ContentTexts, ContentUses, WholeAll, AllBlocks, Uses, WellFormed;
    var frames := Streamed(blocks, stopReason);
    BlocksRun(loads, blocks);
    var before := Steps(loads, AllBlocks(blocks));
    StepsConcat(loads, Next(INITIAL), AllBlocks(blocks) + [MessageDelta(stopReason)], [MessageStop]);
    StepsConcat(loads, Next(INITIAL), AllBlocks(blocks), [MessageDelta(stopReason)]);
    if before.Raised? {
      RaisedSticks(loads, before, [MessageDelta(stopReason)]);
      RaisedSticks(loads, before, [MessageStop]);
    } else {
      OneStep(loads, before.state, MessageDelta(stopReason));
      OneStep(loads, Step(loads, before.state, MessageDelta(stopReason)).state, MessageStop);
      if stopReason != "" { KeptAtEnd(loads, frames, before.state.tools.order); }
    }
  }

  /** The block as the stream tells it: its id is a text. */
  function Sent(b: CutBlock): CutBlock {
    if b.CutTool? then b.(id := TextId(SentId(b.id))) else b
  }

  function SentAll(blocks: seq<CutBlock>): (r: seq<CutBlock>)
    ensures |r| == |blocks| && forall k :: 0 <= k < |r| ==> r[k] == Sent(blocks[k])
  {
    seq(|blocks|, k requires 0 <= k < |blocks| => Sent(blocks[k]))
  }

  lemma SentTheSame(loads: Loads, blocks: seq<CutBlock>)
    ensures TextIds(SentAll(blocks))
    ensures (forall b :: b in SentAll(blocks) ==> WellFormed(loads, b))
       <==> forall b :: b in blocks ==> WellFormed(loads, b)
  {
    var sent := SentAll(blocks);
    assert forall b :: WellFormed(loads, Sent(b)) <==> WellFormed(loads, b);
    forall b | b in blocks ensures Sent(b) in sent {
      var k :| 0 <= k < |blocks| && blocks[k] == b;
      assert sent[k] == Sent(b);
    }
  }

  lemma {:induction false} SentFrames(blocks: seq<CutBlock>)
    ensures AllBlocks(SentAll(blocks)) == AllBlocks(blocks)
  {
    hide Deltas;
    if blocks != [] {
      var n := |blocks| - 1;
      assert SentAll(blocks)[..n] == SentAll(blocks[..n]);
      SentFrames(blocks[..n]);
    }
  }

  /** What the ingestor makes of the sent blocks is what it makes of the blocks, but for ids that are no texts. */
  lemma {:induction false} SentContent(loads: Loads, blocks: seq<CutBlock>)
    requires forall b :: b in blocks ==> WellFormed(loads, b)
    ensures forall b :: b in SentAll(blocks) ==> WellFormed(loads, b)
    ensures var sent, whole := WholeAll(loads, SentAll(blocks)), WholeAll(loads, blocks);
            && ContentTexts(sent) == ContentTexts(whole) && |ContentUses(sent)| == |ContentUses(whole)|
            && (ContentUses(sent) == ContentUses(whole) <==> TextIds(blocks))
  {
    hide ContentTexts, ContentUses, WholeAll, IsObject, WellFormed;
    SentTheSame(loads, blocks);
    if blocks == [] {
      assert SentAll(blocks) == blocks;
    } else {
      var n := |blocks| - 1;
      var init, b := blocks[..n], blocks[n];
      assert blocks == init + [b];
      assert SentAll(blocks) == SentAll(init) + [Sent(b)];
      assert Sent(b) in SentAll(blocks);
      SentContent(loads, init);
      WholeNext(loads, init, b);
      WholeNext(loads, SentAll(init), Sent(b));
      assert TextIds(blocks) <==> TextIds(init) && (b.CutTool? ==> b.id.TextId?);
      if b.CutTool? {
        SentIdSame(loads, b);
        var arguments := Arguments(loads, b.pieces);
        var xs, ys := ContentUses(WholeAll(loads, SentAll(init))), ContentUses(WholeAll(loads, init));
        var x, y := Use(TextId(SentId(b.id)), b.name, arguments), Use(b.id, b.name, arguments);
        assert (xs + [x])[..|xs|] == xs && (ys + [y])[..|ys|] == ys;
        assert (xs + [x])[|xs|] == x && (ys + [y])[|ys|] == y;
      }
    }
  }

  lemma SentIdSame(loads: Loads, b: CutBlock)
    requires b.CutTool? && WellFormed(loads, b)
    ensures b.pieces != [] ==> IsObject(loads, Concat(b.pieces))
    ensures TextId(SentId(b.id)) == b.id <==> b.id.TextId?
  {
  }

  /**
    The streamed response succeeds exactly when it has a stop reason and every tool an id, a name, and either no
    piece of arguments or pieces that make up a JSON object; and then the log keeps the same events as for the
    whole response, exactly when the ids are texts.
    */
  lemma StreamingMatchesIngestion(loads: Loads, blocks: seq<CutBlock>, stopReason: string)
    ensures var (events, ok) := Emission(loads, Streamed(blocks, stopReason), None);
            && (ok <==> stopReason != "" && forall b :: b in blocks ==> WellFormed(loads, b))
            && (ok ==> (Kept(events) == Ingested(loads, blocks, stopReason) <==> TextIds(blocks)))
  {
    hide Emission, Kept, ContentTexts, ContentUses, WholeAll, WellFormed;
    var sent := SentAll(blocks);
    SentTheSame(loads, blocks);
    SentFrames(blocks);
    TextIdsStream(loads, sent, stopReason);
    assert Streamed(sent, stopReason) == Streamed(blocks, stopReason);
    if forall b :: b in blocks ==> WellFormed(loads, b) {
      SentContent(loads, blocks);
      var a, b := Ingested(loads, sent, stopReason), Ingested(loads, blocks, stopReason);
      assert a[1..] == ContentUses(WholeAll(loads, sent)) && b[1..] == ContentUses(WholeAll(loads, blocks));
    }
  }

  /** A tool alone in its response, without arguments. */
  lemma LoneToolIngested(loads: Loads, id: ToolId, name: string, stopReason: string)
    requires !IsFalse(id) && name != ""
    ensures WellFormed(loads, CutTool(id, name, []))
    ensures Ingested(loads, [CutTool(id, name, [])], stopReason)
         == [Message("", StopReason(stopReason)), Use(id, name, EMPTY_DICT)]
  {
    var blocks := [CutTool(id, name, [])];
    assert blocks[..0] == [];
    var whole := WholeAll(loads, blocks);
    assert whole == [ToolContent(id, name, EMPTY_DICT)] && whole[..0] == [];
    assert ContentTexts(whole) == [] && ContentUses(whole) == [Use(id, name, EMPTY_DICT)];
  }

  /** A stream that fails leaves nothing in the log. */
  lemma FailureKeepsNothing(loads: Loads, frames: seq<Frame>)
    requires !Emission(loads, frames, None).1
    ensures Kept(Emission(loads, frames, None).0) == []
  {
    hide Emission, Kept;
    var (events, ok) := Emission(loads, frames, None);
    EveryStreamIsWellShaped(loads, frames, None);
    KeptByShape(events, ok);
  }

  /** A tool without arguments: cut into no pieces it is kept, cut into one empty piece it fails the whole turn. */
  lemma EmptyPieceFailsTheTurn(loads: Loads, id: string, name: string, stopReason: string)
    requires id != "" && name != "" && stopReason != "" && loads("") == None
    ensures var (events, ok) := Emission(loads, Streamed([CutTool(TextId(id), name, [""])], stopReason), None);
            !ok && Kept(events) == []
    ensures var (events, ok) := Emission(loads, Streamed([CutTool(TextId(id), name, [])], stopReason), None);
            ok && Kept(events) == [Message("", StopReason(stopReason)), Use(TextId(id), name, EMPTY_DICT)]
  {
    hide Emission, Streamed, Kept, StopReason, Ingested;
    var bad, good := [CutTool(TextId(id), name, [""])], [CutTool(TextId(id), name, [])];
    assert bad[0] in bad && [""][..0] == [] && "" + "" == "";
    assert !WellFormed(loads, bad[0]);
    StreamingMatchesIngestion(loads, bad, stopReason);
    FailureKeepsNothing(loads, Streamed(bad, stopReason));
    StreamingMatchesIngestion(loads, good, stopReason);
    LoneToolIngested(loads, TextId(id), name, stopReason);
  }

  /** A tool without an id or without a name: the ingestor keeps it, and the stream fails. */
  lemma NamelessToolFailsTheStream(loads: Loads, id: ToolId, name: string, stopReason: string)
    requires IsFalse(id) || name == ""
    ensures var (events, ok) := Emission(loads, Streamed([CutTool(id, name, [])], stopReason), None);
            !ok && Kept(events) == []
    ensures ContentUses([ToolContent(id, name, EMPTY_DICT)]) == [Use(id, name, EMPTY_DICT)]
  {
    hide Emission, Streamed, Kept;
    var blocks, content := [CutTool(id, name, [])], [ToolContent(id, name, EMPTY_DICT)];
    assert blocks[0] in blocks && !WellFormed(loads, blocks[0]) && content[..0] == [];
    StreamingMatchesIngestion(loads, blocks, stopReason);
    FailureKeepsNothing(loads, Streamed(blocks, stopReason));
  }

  /** A tool whose id is a number: the stream keeps its digits, the ingestor the number. */
  lemma NumberIdIsPrinted(loads: Loads, number: int, name: string, stopReason: string)
    requires number != 0 && name != "" && stopReason != ""
    ensures var blocks := [CutTool(NumberId(number), name, [])];
            var (events, ok) := Emission(loads, Streamed(blocks, stopReason), None);
            && WellFormed(loads, blocks[0]) && ok && Kept(events) != Ingested(loads, blocks, stopReason)
            && Ingested(loads, blocks, stopReason)
               == [Message("", StopReason(stopReason)), Use(NumberId(number), name, EMPTY_DICT)]
  {
    hide Emission, Streamed, Kept, Ingested, StopReason, WellFormed, ContentUses, ContentTexts, WholeAll;
    var blocks := [CutTool(NumberId(number), name, [])];
    assert blocks[0] in blocks;
    LoneToolIngested(loads, NumberId(number), name, stopReason);
    StreamingMatchesIngestion(loads, blocks, stopReason);
  }
}
