/** What every streamed Anthropic message keeps, on any frames whatsoever. */
module AnthropicLaws {
  import opened Wrappers
  import opened JsonValues
  import opened Events
  import opened Sorting
  import opened StreamEvents
  import opened AnthropicStreams
  import opened Text

  // ---- Shape -----------------------------------------------------------------------------------------------

  lemma {:induction false} StepsEmitProgress(loads: Loads, frames: seq<Frame>)
    ensures Underway(Steps(loads, frames).state.events, Steps(loads, frames).state.textParts)
  {
    if frames != [] {
      var before := Steps(loads, frames[..|frames| - 1]);
      StepsEmitProgress(loads, frames[..|frames| - 1]);
      if before.Next? {
        StepEmits(loads, before.state, frames[|frames| - 1]);
      }
    }
  }

  /** A frame emits at most one event, and text events exactly with text parts. */
  lemma StepEmits(loads: Loads, s: State, frame: Frame)
    requires Underway(s.events, s.textParts)
    ensures Underway(Step(loads, s, frame).state.events, Step(loads, s, frame).state.textParts)
  {
    var to := Step(loads, s, frame).state;
    if to.events != s.events {
      UnderwayMore(s.events, s.textParts, to.events[|s.events|]);
    } else {
      assert s.textParts + [] == s.textParts;
    }
  }

  /** Started, deltas, and then either a completed turn with what the log keeps, or one failure and nothing kept. */
  lemma EveryStreamIsWellShaped(loads: Loads, frames: seq<Frame>, broken: Option<string>)
    ensures var (events, ok) := Emission(loads, frames, broken); WellShaped(events, ok)
  {
    var end := Steps(loads, frames);
    var (events, ok) := Emission(loads, frames, broken);
    StepsEmitProgress(loads, frames);
    StepsKeepTable(loads, frames);
    if ok {
      UnderwayCompletes(end.state.events, end.state.textParts, end.state.stop, Uses(end.state.tools));
    } else {
      UnderwayFails(end.state.events, end.state.textParts, events[|events| - 1].error);
    }
  }

  // ---- Tools -----------------------------------------------------------------------------------------------

  ghost predicate IsStart(frames: seq<Frame>, k: int, index: int) {
    0 <= k < |frames| && frames[k].BlockStart? && frames[k].index == index
  }

  ghost predicate IsToolStart(frames: seq<Frame>, k: int, id: string) {
    0 <= k < |frames| && frames[k].BlockStart? && frames[k].kind == "tool_use" && frames[k].id == id
  }

  /** No block index is used twice, and no tool id. */
  ghost predicate FreshBlocks(frames: seq<Frame>) {
    && (forall j, k, index :: IsStart(frames, j, index) && IsStart(frames, k, index) ==> j == k)
    && (forall j, k, id :: IsToolStart(frames, j, id) && IsToolStart(frames, k, id) ==> j == k)
  }

  /** Open blocks and tools come from frames, under their own indexes and ids. */
  ghost predicate Placed(s: State, frames: seq<Frame>) {
    && (forall i :: i in s.open || i in s.tools.byIndex ==> exists k :: IsStart(frames, k, i))
    && (forall i :: i in s.tools.byIndex ==> exists k :: IsToolStart(frames, k, s.tools.byIndex[i].id))
    && (forall i, j :: i in s.tools.byIndex && j in s.tools.byIndex && i != j ==>
          s.tools.byIndex[i].id != s.tools.byIndex[j].id)
    && (s.stopped ==> s.open == map[])
  }

  /** Every tool has emitted exactly what it holds. */
  ghost predicate ToolsEmitted(loads: Loads, s: State) {
    && (forall i :: i in s.tools.byIndex ==>
          if i in s.open then Streaming(s.events, s.tools.byIndex[i])
          else Finished(loads, s.events, s.tools.byIndex[i]))
    && (forall id :: NoToolHas(s.tools, id) ==> Silent(s.events, id))
  }

  lemma {:induction false} StepsTrackTools(loads: Loads, frames: seq<Frame>)
    requires FreshBlocks(frames) && Steps(loads, frames).Next?
    ensures Placed(Steps(loads, frames).state, frames) && ToolsEmitted(loads, Steps(loads, frames).state)
  {
    if frames == [] {
      forall id ensures Silent(INITIAL.events, id) {
        Emitted([], TurnStarted, id);
        assert [] + [TurnStarted] == INITIAL.events;
      }
    } else {
      var init, frame := frames[..|frames| - 1], frames[|frames| - 1];
      assert init + [frame] == frames;
      assert forall k, i :: IsStart(init, k, i) ==> IsStart(frames, k, i);
      assert forall k, id :: IsToolStart(init, k, id) ==> IsToolStart(frames, k, id);
      StepsTrackTools(loads, init);
      var s := Steps(loads, init).state;
      StepPlaces(loads, s, init, frame);
      StepEmitsTools(loads, s, init, frame);
    }
  }

  lemma PlacedMore(s: State, init: seq<Frame>, frame: Frame)
    requires Placed(s, init)
    ensures Placed(s, init + [frame])
  {
    var frames := init + [frame];
    forall i | i in s.open || i in s.tools.byIndex ensures exists k :: IsStart(frames, k, i) {
      var k :| IsStart(init, k, i);
      assert IsStart(frames, k, i);
    }
    forall i | i in s.tools.byIndex ensures exists k :: IsToolStart(frames, k, s.tools.byIndex[i].id) {
      var k :| IsToolStart(init, k, s.tools.byIndex[i].id);
      assert IsToolStart(frames, k, s.tools.byIndex[i].id);
    }
  }

  lemma StepPlaces(loads: Loads, s: State, init: seq<Frame>, frame: Frame)
    requires FreshBlocks(init + [frame]) && Placed(s, init) && Step(loads, s, frame).Next?
    ensures Placed(Step(loads, s, frame).state, init + [frame])
  {
    hide FreshBlocks, Placed, Step;
    PlacedMore(s, init, frame);
    if frame.BlockStart? {
      StartFrameIsNew(s, init, frame);
      StartPlaces(loads, s, init, frame);
    } else {
      StepKeepsTools(loads, s, frame);
      KeepsPlaces(s, Step(loads, s, frame).state, init + [frame]);
    }
  }

  lemma StartPlaces(loads: Loads, s: State, init: seq<Frame>, frame: Frame)
    requires Placed(s, init + [frame]) && frame.BlockStart? && Step(loads, s, frame).Next?
    requires frame.index !in s.tools.byIndex && (frame.kind == "tool_use" ==> NoToolHas(s.tools, frame.id))
    ensures Placed(Step(loads, s, frame).state, init + [frame])
  {
    assert IsStart(init + [frame], |init|, frame.index);
    if frame.kind == "tool_use" { assert IsToolStart(init + [frame], |init|, frame.id); }
  }

  lemma StepKeepsTools(loads: Loads, s: State, frame: Frame)
    requires !frame.BlockStart? && Step(loads, s, frame).Next?
    ensures var to := Step(loads, s, frame).state;
            && to.open.Keys <= s.open.Keys && to.tools.byIndex.Keys == s.tools.byIndex.Keys
            && (forall i :: i in s.tools.byIndex ==> to.tools.byIndex[i].id == s.tools.byIndex[i].id)
            && ((s.stopped ==> s.open == map[]) ==> to.stopped ==> to.open == map[])
  {
  }

  lemma KeepsPlaces(s: State, to: State, frames: seq<Frame>)
    requires Placed(s, frames) && ((s.stopped ==> s.open == map[]) ==> to.stopped ==> to.open == map[])
    requires to.open.Keys <= s.open.Keys && to.tools.byIndex.Keys == s.tools.byIndex.Keys
    requires forall i :: i in s.tools.byIndex ==> to.tools.byIndex[i].id == s.tools.byIndex[i].id
    ensures Placed(to, frames)
  {
  }

  lemma StepEmitsTools(loads: Loads, s: State, init: seq<Frame>, frame: Frame)
    requires FreshBlocks(init + [frame]) && Placed(s, init) && ToolsEmitted(loads, s) && Step(loads, s, frame).Next?
    ensures ToolsEmitted(loads, Step(loads, s, frame).state)
  {
    if frame.BlockStart? {
      StartFrameIsNew(s, init, frame);
      StartEmits(loads, s, frame.index, frame.kind, frame.id, frame.name);
    } else if frame.BlockDelta? {
      DeltaEmits(loads, s, frame.index, frame.delta);
    } else if frame.BlockStop? {
      StopEmits(loads, s, frame.index);
    }
  }

  lemma StartFrameIsNew(s: State, init: seq<Frame>, frame: Frame)
    requires FreshBlocks(init + [frame]) && Placed(s, init) && frame.BlockStart?
    ensures frame.index !in s.open && frame.index !in s.tools.byIndex
    ensures frame.kind == "tool_use" ==> NoToolHas(s.tools, frame.id)
  {
    var frames := init + [frame];
    assert forall k, i :: IsStart(init, k, i) ==> IsStart(frames, k, i);
    assert forall k, id :: IsToolStart(init, k, id) ==> IsToolStart(frames, k, id);
    assert IsStart(frames, |init|, frame.index);
    if frame.kind == "tool_use" { assert IsToolStart(frames, |init|, frame.id); }
  }

  lemma StartEmits(loads: Loads, s: State, index: int, kind: string, id: string, name: string)
    requires ToolsEmitted(loads, s) && index !in s.open && index !in s.tools.byIndex
    requires kind == "tool_use" ==> NoToolHas(s.tools, id)
    requires StepStart(s, index, kind, id, name).Next?
    ensures ToolsEmitted(loads, StepStart(s, index, kind, id, name).state)
  {
    if kind == "tool_use" {
      var to := StepStart(s, index, kind, id, name).state;
      forall x ensures EmittedTo(s.events, ToolBegin(id, name), x, to.events) {
        Emitted(s.events, ToolBegin(id, name), x);
      }
      forall x | NoToolHas(to.tools, x) ensures Silent(to.events, x) {
        assert to.tools.byIndex[index].id == id;
        assert forall i :: i in s.tools.byIndex ==> to.tools.byIndex[i] == s.tools.byIndex[i];
        assert NoToolHas(s.tools, x);
      }
    }
  }

  /** Replacing a tool by one with the same id changes no id. */
  lemma SameIds(t: ToolTable, index: int, tool: Tool)
    requires index in t.byIndex && tool.id == t.byIndex[index].id
    ensures forall x :: NoToolHas(t.Put(index, tool), x) ==> NoToolHas(t, x)
  {
    forall x | NoToolHas(t.Put(index, tool), x) ensures NoToolHas(t, x) {
      forall i | i in t.byIndex ensures t.byIndex[i].id != x {
        assert i in t.Put(index, tool).byIndex;
      }
    }
  }

  lemma TextEmits(loads: Loads, s: State, to: State, text: string)
    requires ToolsEmitted(loads, s) && to.tools == s.tools && to.open == s.open
    requires to.events == s.events + [TextDelta(text)]
    ensures ToolsEmitted(loads, to)
  {
    forall x ensures EmittedTo(s.events, TextDelta(text), x, to.events) { Emitted(s.events, TextDelta(text), x); }
    forall i | i in s.tools.byIndex
      ensures EmittedTo(s.events, TextDelta(text), s.tools.byIndex[i].id, to.events)
    {
    }
  }

  lemma DeltaEmits(loads: Loads, s: State, index: int, delta: Delta)
    requires ToolsEmitted(loads, s) && index in s.open && StepDelta(s, index, delta).Next?
    requires forall i, j :: i in s.tools.byIndex && j in s.tools.byIndex && i != j ==>
               s.tools.byIndex[i].id != s.tools.byIndex[j].id
    ensures ToolsEmitted(loads, StepDelta(s, index, delta).state)
  {
    var to := StepDelta(s, index, delta).state;
    if delta.TextPiece? {
      if delta.text != "" { TextEmits(loads, s, to, delta.text); }
    } else {
      ArgumentEmits(loads, s, to, index, delta.json);
    }
  }

  lemma ArgumentEmits(loads: Loads, s: State, to: State, index: int, json: string)
    requires ToolsEmitted(loads, s) && index in s.open && index in s.tools.byIndex
    requires forall i, j :: i in s.tools.byIndex && j in s.tools.byIndex && i != j ==>
               s.tools.byIndex[i].id != s.tools.byIndex[j].id
    requires var tool := s.tools.byIndex[index];
             && to.tools == s.tools.Put(index, tool.(chunks := tool.chunks + [json])) && to.open == s.open
             && to.events == s.events + [ArgumentDelta(tool.id, json)]
    ensures ToolsEmitted(loads, to)
  {
    var tool := s.tools.byIndex[index];
    var e := ArgumentDelta(tool.id, json);
    SameIds(s.tools, index, tool.(chunks := tool.chunks + [json]));
    forall x ensures EmittedTo(s.events, e, x, to.events) { Emitted(s.events, e, x); }
  }

  lemma StopEmits(loads: Loads, s: State, index: int)
    requires ToolsEmitted(loads, s) && index in s.open && StepStop(loads, s, index).Next?
    requires forall i, j :: i in s.tools.byIndex && j in s.tools.byIndex && i != j ==>
               s.tools.byIndex[i].id != s.tools.byIndex[j].id
    ensures ToolsEmitted(loads, StepStop(loads, s, index).state)
  {
    if index in s.tools.byIndex {
      var arguments := ParseArguments(loads, s.tools.byIndex[index].chunks).value;
      EndEmits(loads, s, StepStop(loads, s, index).state, index, arguments);
    }
  }

  lemma EndEmits(loads: Loads, s: State, to: State, index: int, arguments: Json)
    requires ToolsEmitted(loads, s) && index in s.open && index in s.tools.byIndex
    requires forall i, j :: i in s.tools.byIndex && j in s.tools.byIndex && i != j ==>
               s.tools.byIndex[i].id != s.tools.byIndex[j].id
    requires var tool := s.tools.byIndex[index];
             && ParseArguments(loads, tool.chunks) == Some(arguments)
             && to.tools == s.tools.Put(index, tool.(arguments := arguments)) && to.open == s.open - {index}
             && to.events == s.events + [ToolEnd(tool.id, arguments)]
    ensures ToolsEmitted(loads, to)
  {
    hide ParseArguments;
    var tool := s.tools.byIndex[index];
    var e := ToolEnd(tool.id, arguments);
    SameIds(s.tools, index, tool.(arguments := arguments));
    forall x ensures EmittedTo(s.events, e, x, to.events) { Emitted(s.events, e, x); }
  }

  /** The uses a stream ends with. */
  function FinalUses(loads: Loads, frames: seq<Frame>): seq<StreamEvent> {
    StepsKeepTable(loads, frames);
    Uses(Steps(loads, frames).state.tools)
  }

  /** With fresh blocks, each use is the tool begun under its id, its arguments the parse of its deltas. */
  lemma UsesAreTheirDeltas(loads: Loads, frames: seq<Frame>, broken: Option<string>)
    requires FreshBlocks(frames) && Emission(loads, frames, broken).1
    ensures UsesMatchDeltas(loads, Emission(loads, frames, broken).0, FinalUses(loads, frames))
  {
    hide StepsFrom, FreshBlocks, Finished, Streaming, Silent, NoToolHas, UsesMatchDeltas, Uses;
    var s := Steps(loads, frames).state;
    StepsTrackTools(loads, frames);
    StepsKeepTable(loads, frames);
    var end := [TurnCompleted(s.stop), Message(Concat(s.textParts), s.stop)];
    assert s.events + (end + Uses(s.tools)) == s.events + end + Uses(s.tools);
    FinishedToolsMatch(loads, s.events, end + Uses(s.tools), s.tools);
  }

  // ---- Tools that get lost -----------------------------------------------------------------------------------

  /** The block indexes of the tools begun, in order. */
  function ToolIndexes(frames: seq<Frame>): seq<int> {
    if frames == [] then []
    else
      var f := frames[|frames| - 1];
      ToolIndexes(frames[..|frames| - 1]) + (if f.BlockStart? && f.kind == "tool_use" then [f.index] else [])
  }

  predicate Distinct(ns: seq<int>) {
    forall j, k :: 0 <= j < k < |ns| ==> ns[j] != ns[k]
  }

  /** A successful stream keeps all the tools it began exactly when no two were begun under one block index. */
  lemma NoToolLostIff(loads: Loads, frames: seq<Frame>)
    requires Steps(loads, frames).Next?
    ensures |FinalUses(loads, frames)| == |ToolIndexes(frames)| <==> Distinct(ToolIndexes(frames))
  {
    var table := Steps(loads, frames).state.tools;
    TableHoldsIndexes(loads, frames);
    StepsKeepTable(loads, frames);
    SortedLength(table.order);
  }

  /** Two tools, the second begun under the index of the first after that block was closed. */
  const REUSED_INDEX: seq<Frame> := [
    MessageStart,
    BlockStart(0, "tool_use", "a", "first"), BlockStop(0),
    BlockStart(0, "tool_use", "b", "second"), BlockStop(0),
    MessageDelta("tool_use"), MessageStop]

  lemma NextFrame(loads: Loads, k: nat)
    requires k < |REUSED_INDEX| && Steps(loads, REUSED_INDEX[..k]).Next?
    ensures Steps(loads, REUSED_INDEX[..k + 1]) == Step(loads, Steps(loads, REUSED_INDEX[..k]).state, REUSED_INDEX[k])
  {
    assert REUSED_INDEX[..k + 1][..k] == REUSED_INDEX[..k];
  }

  /** A tool block without deltas. */
  lemma EmptyToolRuns(loads: Loads, s: State, index: int, id: string, name: string)
    requires Active(s) && s.open == map[] && id != "" && name != ""
    ensures var begun := Step(loads, s, BlockStart(index, "tool_use", id, name));
            && begun.Next?
            && Step(loads, begun.state, BlockStop(index))
               == Next(s.(tools := s.tools.Put(index, Tool(id, name, [], EMPTY_DICT, true)),
                          events := s.events + [ToolBegin(id, name)] + [ToolEnd(id, EMPTY_DICT)]))
  {
    var tool := Tool(id, name, [], EMPTY_DICT, true);
    assert s.tools.byIndex[index := tool][index := tool] == s.tools.byIndex[index := tool];
    assert map[index := "tool_use"] - {index} == map[];
  }

  lemma NoFrames(loads: Loads)
    ensures Steps(loads, []) == Next(INITIAL)
  {
  }

  const ANNOUNCED: seq<StreamEvent> :=
    [TurnStarted] + [ToolBegin("a", "first")] + [ToolEnd("a", EMPTY_DICT)]
    + [ToolBegin("b", "second")] + [ToolEnd("b", EMPTY_DICT)]

  lemma FirstToolReplaced(loads: Loads)
    ensures var r := Steps(loads, REUSED_INDEX);
            && r.Next? && r.state.events == ANNOUNCED && r.state.textParts == [] && r.state.stop == "tool_use"
            && r.state.tools == ToolTable([0], map[0 := Tool("b", "second", [], EMPTY_DICT, true)])
            && r.state.started && r.state.stopped && r.state.stopSeen
  {
    hide StepsFrom, Step;
    NoFrames(loads);
    assert REUSED_INDEX[..0] == [] && REUSED_INDEX[..7] == REUSED_INDEX;
    NextFrame(loads, 0);
    var s1 := INITIAL.(started := true);
    Starts(loads);
    EmptyToolRuns(loads, s1, 0, "a", "first");
    NextFrame(loads, 1);
    NextFrame(loads, 2);
    var s3 := Steps(loads, REUSED_INDEX[..3]).state;
    EmptyToolRuns(loads, s3, 0, "b", "second");
    NextFrame(loads, 3);
    NextFrame(loads, 4);
    var s5 := Steps(loads, REUSED_INDEX[..5]).state;
    var first, second := Tool("a", "first", [], EMPTY_DICT, true), Tool("b", "second", [], EMPTY_DICT, true);
    assert map[0 := first][0 := second] == map[0 := second];
    Closes(loads, s5);
    NextFrame(loads, 5);
    NextFrame(loads, 6);
  }

  lemma Starts(loads: Loads)
    ensures Step(loads, INITIAL, MessageStart) == Next(INITIAL.(started := true))
  {
  }

  lemma Closes(loads: Loads, s: State)
    requires Active(s) && s.open == map[] && !s.stopSeen
    ensures var told := Step(loads, s, MessageDelta("tool_use"));
            && told.Next?
            && Step(loads, told.state, MessageStop) == Next(s.(stop := "tool_use", stopSeen := true, stopped := true))
  {
  }

  lemma AnnouncedTwo()
    ensures Begins(ANNOUNCED, "a") == ["first"] && Begins(ANNOUNCED, "b") == ["second"]
  {
    var one := [TurnStarted] + [ToolBegin("a", "first")];
    var two := one + [ToolEnd("a", EMPTY_DICT)];
    var three := two + [ToolBegin("b", "second")];
    forall id | id in {"a", "b"} ensures Begins(ANNOUNCED, id) == if id == "a" then ["first"] else ["second"] {
      assert [TurnStarted][..0] == [];
      Emitted([TurnStarted], ToolBegin("a", "first"), id);
      Emitted(one, ToolEnd("a", EMPTY_DICT), id);
      Emitted(two, ToolBegin("b", "second"), id);
      Emitted(three, ToolEnd("b", EMPTY_DICT), id);
    }
  }

  lemma OneUse(table: ToolTable, tool: Tool)
    requires table == ToolTable([0], map[0 := tool])
    ensures table.Valid() && Uses(table) == [UseOf(tool)]
  {
    hide Sorted;
    assert 0 in table.order;
    AscendingIsSorted([0]);
  }

  lemma ReusedIndexEmits(loads: Loads, use: StreamEvent)
    requires use == Use(TextId("b"), "second", EMPTY_DICT)
    ensures Emission(loads, REUSED_INDEX, None)
         == (ANNOUNCED + [TurnCompleted("tool_use"), Message("", "tool_use")] + [use], true)
  {
    hide StepsFrom, Uses, ANNOUNCED, REUSED_INDEX;
    FirstToolReplaced(loads);
    OneUse(Steps(loads, REUSED_INDEX).state.tools, Tool("b", "second", [], EMPTY_DICT, true));
  }

  /** The stream succeeds, both tools were announced, and the log keeps a call of the second only. */
  lemma ReusedIndexLosesTool(loads: Loads)
    ensures var (events, ok) := Emission(loads, REUSED_INDEX, None);
            && ok && Begins(events, "a") == ["first"] && Begins(events, "b") == ["second"]
            && Kept(events) == [Message("", "tool_use"), Use(TextId("b"), "second", EMPTY_DICT)]
  {
    hide StepsFrom, Kept, Begins, Texts, Emission, REUSED_INDEX;
    FirstToolReplaced(loads);
    StepsEmitProgress(loads, REUSED_INDEX);
    var uses := [Use(TextId("b"), "second", EMPTY_DICT)];
    ReusedIndexEmits(loads, uses[0]);
    var end := [TurnCompleted("tool_use"), Message("", "tool_use")];
    KeptAfterProgress(ANNOUNCED, [], "tool_use", uses);
    assert ANNOUNCED + (end + uses) == ANNOUNCED + end + uses;
    SilentTail(ANNOUNCED, end + uses, "a");
    SilentTail(ANNOUNCED, end + uses, "b");
    AnnouncedTwo();
  }

  lemma {:induction false} TableHoldsIndexes(loads: Loads, frames: seq<Frame>)
    requires Steps(loads, frames).Next?
    ensures var order := Steps(loads, frames).state.tools.order;
            && Steps(loads, frames).state.tools.Valid()
            && (forall i :: i in order <==> i in ToolIndexes(frames))
            && |order| <= |ToolIndexes(frames)|
            && (|order| == |ToolIndexes(frames)| <==> Distinct(ToolIndexes(frames)))
  {
    if frames != [] {
      var init, f := frames[..|frames| - 1], frames[|frames| - 1];
      TableHoldsIndexes(loads, init);
      var s := Steps(loads, init).state;
      var to := Step(loads, s, f).state;
      if f.BlockStart? && f.kind == "tool_use" {
        IndexAdded(s.tools.order, ToolIndexes(init), f.index, to.tools.order);
      } else {
        assert ToolIndexes(init) + [] == ToolIndexes(init);
        assert to.tools.order == s.tools.order;
      }
    }
  }

  lemma IndexAdded(order: seq<int>, all: seq<int>, index: int, to: seq<int>)
    requires forall i :: i in order <==> i in all
    requires |order| <= |all| && (|order| == |all| <==> Distinct(all))
    requires to == if index in order then order else order + [index]
    ensures forall i :: i in to <==> i in all + [index]
    ensures |to| <= |all + [index]| && (|to| == |all + [index]| <==> Distinct(all + [index]))
  {
    var more := all + [index];
    if index in order {
      var k :| 0 <= k < |all| && all[k] == index;
      assert more[k] == more[|all|];
    } else if Distinct(more) {
      forall j, k | 0 <= j < k < |all| ensures all[j] != all[k] {
        assert more[j] != more[k];
      }
    }
  }
}
