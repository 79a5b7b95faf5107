/** What every streamed OpenAI completion keeps, on any frames whatsoever. */
module OpenAILaws {
  import opened Wrappers
  import opened StreamEvents
  import opened OpenAIStreams
  import opened Text

  // ---- Shape -----------------------------------------------------------------------------------------------

  lemma TextUnderway(s: State, text: string)
    requires Underway(s.events, s.textParts)
    ensures Underway(WithText(s, text).events, WithText(s, text).textParts)
  {
    if text != "" { UnderwayMore(s.events, s.textParts, TextDelta(text)); }
  }

  /** An event that is no text leaves the text parts as they are. */
  lemma ToolUnderway(events: seq<StreamEvent>, textParts: seq<string>, e: StreamEvent)
    requires Underway(events, textParts) && IsProgress(e) && !e.TextDelta?
    ensures Underway(events + [e], textParts)
  {
    UnderwayMore(events, textParts, e);
    assert textParts + [] == textParts;
  }

  lemma CallUnderway(s: State, call: CallDelta)
    requires s.tools.Valid() && Underway(s.events, s.textParts)
    ensures Underway(StepCall(s, call).state.events, s.textParts) && StepCall(s, call).state.textParts == s.textParts
  {
    hide Underway;
    var t := if call.index in s.tools.byIndex then s.tools.byIndex[call.index] else NEW_TOOL;
    var named := Named(t, call);
    var events := s.events;
    if named.begun && !t.begun {
      ToolUnderway(events, s.textParts, ToolBegin(named.id, named.name));
      events := events + [ToolBegin(named.id, named.name)];
    }
    ToolUnderway(events, s.textParts, ArgumentDelta(named.id, call.arguments));
  }

  lemma {:induction false} CallsUnderway(s: State, calls: seq<CallDelta>)
    requires s.tools.Valid() && Underway(s.events, s.textParts)
    ensures Underway(StepCalls(s, calls).state.events, s.textParts)
    ensures StepCalls(s, calls).state.textParts == s.textParts
  {
    hide Underway, StepCall;
    if calls != [] {
      CallsUnderway(s, calls[..|calls| - 1]);
      var before := StepCalls(s, calls[..|calls| - 1]);
      if before.Next? { CallUnderway(before.state, calls[|calls| - 1]); }
    }
  }

  lemma {:induction false} EndsUnderway(loads: Loads, s: State, n: nat)
    requires s.tools.Valid() && n <= |s.tools.order| && Underway(s.events, s.textParts)
    ensures var to := EndTools(loads, s, n).state; Underway(to.events, s.textParts) && to.textParts == s.textParts
  {
    hide Underway;
    if n > 0 {
      EndsUnderway(loads, s, n - 1);
      var before := EndTools(loads, s, n - 1);
      if before.Next? {
        var index := s.tools.order[n - 1];
        assert index in before.state.tools.order;
        var t := before.state.tools.byIndex[index];
        var parsed := ParseArguments(loads, t.chunks);
        if parsed.Some? { ToolUnderway(before.state.events, s.textParts, ToolEnd(t.id, parsed.value)); }
      }
    }
  }

  lemma StepUnderway(loads: Loads, s: State, frame: Frame)
    requires s.tools.Valid() && Underway(s.events, s.textParts)
    ensures var to := Step(loads, s, frame).state; Underway(to.events, to.textParts)
  {
    hide Underway, StepCalls, EndTools;
    if frame.Chunk? {
      var after := Next(s);
      if frame.delta.Some? {
        var delta := frame.delta.value;
        TextUnderway(s, delta.content);
        CallsUnderway(WithText(s, delta.content), delta.calls);
        after := StepCalls(WithText(s, delta.content), delta.calls);
      }
      var finished := after.state.(finishSeen := true, stop := StopReason(frame.finish));
      EndsUnderway(loads, finished, |finished.tools.order|);
    }
  }

  lemma {:induction false} StepsUnderway(loads: Loads, frames: seq<Frame>)
    ensures var to := Steps(loads, frames).state; Underway(to.events, to.textParts)
  {
    hide Step;
    if frames != [] {
      StepsUnderway(loads, frames[..|frames| - 1]);
      var before := Steps(loads, frames[..|frames| - 1]);
      if before.Next? { StepUnderway(loads, before.state, frames[|frames| - 1]); }
    }
  }

  /** Started, deltas, and then either a completed turn with what the log keeps, or one failure and nothing kept. */
  lemma EveryStreamIsWellShaped(loads: Loads, frames: seq<Frame>, broken: Option<string>)
    ensures var (events, ok) := Emission(loads, frames, broken); WellShaped(events, ok)
  {
    hide StepsFrom;
    var end := Steps(loads, frames);
    var (events, ok) := Emission(loads, frames, broken);
    StepsUnderway(loads, frames);
    if ok {
      UnderwayCompletes(end.state.events, end.state.textParts, end.state.stop, Uses(end.state.tools));
    } else {
      UnderwayFails(end.state.events, end.state.textParts, events[|events| - 1].error);
    }
  }

  // ---- Tools -----------------------------------------------------------------------------------------------

  /** The pieces of calls in the frames, in order. */
  function AllCalls(frames: seq<Frame>): seq<CallDelta> {
    if frames == [] then []
    else
      var f := frames[|frames| - 1];
      AllCalls(frames[..|frames| - 1]) + (if f.Chunk? && f.delta.Some? then f.delta.value.calls else [])
  }

  /** One index, one id and one name; and different indexes, different ids. */
  ghost predicate StableCalls(calls: seq<CallDelta>) {
    forall j, k :: 0 <= j < |calls| && 0 <= k < |calls| ==> Agree(calls[j], calls[k])
  }

  ghost predicate Agree(a: CallDelta, b: CallDelta) {
    && (a.id != "" && b.id != "" ==> (a.id == b.id <==> a.index == b.index))
    && (a.name != "" && b.name != "" && a.index == b.index ==> a.name == b.name)
  }

  /** What a tool holds comes from the pieces under its index. */
  ghost predicate SourcedTool(t: Tool, index: int, calls: seq<CallDelta>) {
    && (t.id != "" ==> exists c :: c in calls && c.index == index && c.id == t.id)
    && (t.name != "" ==> exists c :: c in calls && c.index == index && c.name == t.name)
    && (t.begun <==> t.id != "" && t.name != "")
    && (!t.begun ==> t.chunks == [])
  }

  ghost predicate Sourced(s: State, calls: seq<CallDelta>) {
    forall i :: i in s.tools.byIndex ==> SourcedTool(s.tools.byIndex[i], i, calls)
  }

  /** The tools that have emitted something have different ids. */
  ghost predicate BegunApart(tools: ToolTable) {
    forall i, j :: i in tools.byIndex && j in tools.byIndex && i != j
                   && tools.byIndex[i].begun && tools.byIndex[j].begun
                   ==> tools.byIndex[i].id != tools.byIndex[j].id
  }

  ghost predicate NoneBegun(tools: ToolTable, id: string) {
    forall i :: i in tools.byIndex && tools.byIndex[i].begun ==> tools.byIndex[i].id != id
  }

  /** Every begun tool has emitted exactly what it holds; those with an index in `done` are finished. */
  ghost predicate ToolsEmitted(loads: Loads, s: State, done: set<int>) {
    && (forall i :: i in s.tools.byIndex && s.tools.byIndex[i].begun ==>
          if i in done then Finished(loads, s.events, s.tools.byIndex[i])
          else Streaming(s.events, s.tools.byIndex[i]))
    && (forall id :: NoneBegun(s.tools, id) ==> Silent(s.events, id))
  }

  lemma SourcedApart(s: State, calls: seq<CallDelta>)
    requires Sourced(s, calls) && StableCalls(calls)
    ensures BegunApart(s.tools)
  {
    forall i, j | i in s.tools.byIndex && j in s.tools.byIndex && i != j
                  && s.tools.byIndex[i].begun && s.tools.byIndex[j].begun
      ensures s.tools.byIndex[i].id != s.tools.byIndex[j].id
    {
      var a :| a in calls && a.index == i && a.id == s.tools.byIndex[i].id;
      var b :| b in calls && b.index == j && b.id == s.tools.byIndex[j].id;
      assert Agree(a, b);
    }
  }

  lemma SourcedMore(s: State, calls: seq<CallDelta>, call: CallDelta)
    requires Sourced(s, calls)
    ensures Sourced(s, calls + [call])
  {
    forall i | i in s.tools.byIndex ensures SourcedTool(s.tools.byIndex[i], i, calls + [call]) {
      SourcedToolMore(s.tools.byIndex[i], i, calls, call);
    }
  }

  lemma SourcedToolMore(t: Tool, index: int, calls: seq<CallDelta>, call: CallDelta)
    requires SourcedTool(t, index, calls)
    ensures SourcedTool(t, index, calls + [call])
  {
    if t.id != "" {
      var c :| c in calls && c.index == index && c.id == t.id;
      assert c in calls + [call];
    }
    if t.name != "" {
      var c :| c in calls && c.index == index && c.name == t.name;
      assert c in calls + [call];
    }
  }

  lemma NamedSourced(t: Tool, calls: seq<CallDelta>, call: CallDelta)
    requires SourcedTool(t, call.index, calls) && StableCalls(calls + [call])
    ensures SourcedTool(Named(t, call), call.index, calls + [call])
    ensures t.begun ==> Named(t, call) == t
  {
    SourcedToolMore(t, call.index, calls, call);
    var all := calls + [call];
    assert call in all;
    if t.id != "" {
      var c :| c in calls && c.index == call.index && c.id == t.id;
      assert c in all && Agree(c, call);
    }
    if t.name != "" {
      var c :| c in calls && c.index == call.index && c.name == t.name;
      assert c in all && Agree(c, call);
    }
  }

  /** The event of one tool leaves the emissions of all others alone. */
  lemma OthersUntouched(events: seq<StreamEvent>, e: StreamEvent, id: string, other: string)
    requires (e.ToolBegin? || e.ArgumentDelta? || e.ToolEnd?) && e.id == id && other != id
    ensures Begins(events + [e], other) == Begins(events, other)
    ensures ArgumentChunks(events + [e], other) == ArgumentChunks(events, other)
    ensures Ends(events + [e], other) == Ends(events, other)
  {
    Emitted(events, e, other);
  }

  /** Putting a begun tool whose own emission is right keeps all emissions right. */
  lemma PutEmits(
    loads: Loads, s: State, to: State, index: int, tool: Tool, e: StreamEvent, done: set<int>, after: set<int>)
    requires ToolsEmitted(loads, s, done) && tool.begun
    requires (e.ToolBegin? || e.ArgumentDelta? || e.ToolEnd?) && e.id == tool.id
    requires forall i :: i in s.tools.byIndex && i != index && s.tools.byIndex[i].begun ==>
               s.tools.byIndex[i].id != tool.id
    requires index in s.tools.byIndex && s.tools.byIndex[index].begun ==> s.tools.byIndex[index].id == tool.id
    requires to.tools == s.tools.Put(index, tool) && to.events == s.events + [e]
    requires after - {index} == done - {index}
    requires if index in after then Finished(loads, to.events, tool) else Streaming(to.events, tool)
    ensures ToolsEmitted(loads, to, after)
  {
    hide Begins, ArgumentChunks, Ends, ParseArguments;
    forall i | i in to.tools.byIndex && i != index && to.tools.byIndex[i].begun
      ensures if i in after then Finished(loads, to.events, to.tools.byIndex[i])
              else Streaming(to.events, to.tools.byIndex[i])
    {
      OthersUntouched(s.events, e, tool.id, to.tools.byIndex[i].id);
      assert i in after - {index} <==> i in done - {index};
    }
    forall x | NoneBegun(to.tools, x) ensures Silent(to.events, x) {
      assert to.tools.byIndex[index] == tool;
      assert forall i :: i in s.tools.byIndex && i != index ==> to.tools.byIndex[i] == s.tools.byIndex[i];
      assert NoneBegun(s.tools, x);
      OthersUntouched(s.events, e, tool.id, x);
    }
  }

  lemma NamingEmits(loads: Loads, s: State, to: State, index: int, t: Tool, named: Tool, calls: seq<CallDelta>)
    requires ToolsEmitted(loads, s, {}) && named.begun && !t.begun && named.chunks == []
    requires t == if index in s.tools.byIndex then s.tools.byIndex[index] else NEW_TOOL
    requires to.tools == s.tools.Put(index, named) && to.events == s.events + [ToolBegin(named.id, named.name)]
    requires Sourced(to, calls) && StableCalls(calls)
    ensures ToolsEmitted(loads, to, {})
  {
    SourcedApart(to, calls);
    assert to.tools.byIndex[index] == named;
    forall i | i in s.tools.byIndex && i != index && s.tools.byIndex[i].begun
      ensures s.tools.byIndex[i].id != named.id
    {
      assert to.tools.byIndex[i] == s.tools.byIndex[i];
    }
    assert NoneBegun(s.tools, named.id);
    Emitted(s.events, ToolBegin(named.id, named.name), named.id);
    PutEmits(loads, s, to, index, named, ToolBegin(named.id, named.name), {}, {});
  }

  /** A tool that has not begun counts for nothing. */
  lemma UnbegunEmits(loads: Loads, s: State, to: State, index: int, named: Tool)
    requires ToolsEmitted(loads, s, {}) && !named.begun && to.events == s.events
    requires index in s.tools.byIndex ==> !s.tools.byIndex[index].begun
    requires to.tools == s.tools.Put(index, named)
    ensures ToolsEmitted(loads, to, {})
  {
    assert to.tools.byIndex[index] == named;
    forall x | NoneBegun(to.tools, x) ensures Silent(to.events, x) {
      assert forall i :: i in s.tools.byIndex && i != index ==> to.tools.byIndex[i] == s.tools.byIndex[i];
      assert NoneBegun(s.tools, x);
    }
  }

  lemma PutSourced(s: State, to: State, index: int, tool: Tool, calls: seq<CallDelta>)
    requires Sourced(s, calls) && SourcedTool(tool, index, calls) && to.tools == s.tools.Put(index, tool)
    ensures Sourced(to, calls)
  {
  }

  /** The state after the id and name of a piece, before its arguments. */
  function NameStage(s: State, call: CallDelta): State {
    var t := if call.index in s.tools.byIndex then s.tools.byIndex[call.index] else NEW_TOOL;
    var named := Named(t, call);
    s.(tools := s.tools.Put(call.index, named),
       events := if named.begun && !t.begun then s.events + [ToolBegin(named.id, named.name)] else s.events)
  }

  lemma NameStageTracks(loads: Loads, s: State, calls: seq<CallDelta>, call: CallDelta)
    requires Sourced(s, calls) && StableCalls(calls + [call]) && ToolsEmitted(loads, s, {})
    ensures Sourced(NameStage(s, call), calls + [call]) && ToolsEmitted(loads, NameStage(s, call), {})
  {
    hide ToolsEmitted, Sourced, StableCalls;
    var index, to := call.index, NameStage(s, call);
    var t := if index in s.tools.byIndex then s.tools.byIndex[index] else NEW_TOOL;
    var named := Named(t, call);
    ToolSourced(s, calls, index);
    NamedSourced(t, calls, call);
    SourcedMore(s, calls, call);
    PutSourced(s, to, index, named, calls + [call]);
    if t.begun {
      assert s.tools.byIndex[index := t] == s.tools.byIndex;
      assert to == s;
    } else if named.begun {
      NamingEmits(loads, s, to, index, t, named, calls + [call]);
    } else {
      UnbegunEmits(loads, s, to, index, named);
    }
  }

  lemma ToolSourced(s: State, calls: seq<CallDelta>, index: int)
    requires Sourced(s, calls)
    ensures SourcedTool(if index in s.tools.byIndex then s.tools.byIndex[index] else NEW_TOOL, index, calls)
  {
  }

  lemma ArgumentTracks(loads: Loads, s: State, to: State, calls: seq<CallDelta>, index: int, chunk: string)
    requires Sourced(s, calls) && StableCalls(calls) && ToolsEmitted(loads, s, {})
    requires index in s.tools.byIndex && s.tools.byIndex[index].begun
    requires var t := s.tools.byIndex[index];
             && to.tools == s.tools.Put(index, t.(chunks := t.chunks + [chunk]))
             && to.events == s.events + [ArgumentDelta(t.id, chunk)]
    ensures Sourced(to, calls) && ToolsEmitted(loads, to, {})
  {
    var t := s.tools.byIndex[index];
    var filled := t.(chunks := t.chunks + [chunk]);
    ToolSourced(s, calls, index);
    PutSourced(s, to, index, filled, calls);
    SourcedApart(s, calls);
    Emitted(s.events, ArgumentDelta(t.id, chunk), t.id);
    PutEmits(loads, s, to, index, filled, ArgumentDelta(t.id, chunk), {}, {});
  }

  lemma CallTracks(loads: Loads, s: State, calls: seq<CallDelta>, call: CallDelta)
    requires s.tools.Valid() && Sourced(s, calls) && StableCalls(calls + [call]) && ToolsEmitted(loads, s, {})
    requires StepCall(s, call).Next?
    ensures Sourced(StepCall(s, call).state, calls + [call]) && ToolsEmitted(loads, StepCall(s, call).state, {})
  {
    hide ToolsEmitted, Sourced, StableCalls;
    NameStageTracks(loads, s, calls, call);
    var named, to := NameStage(s, call), StepCall(s, call).state;
    if call.arguments != "" {
      var t := named.tools.byIndex[call.index];
      var filled := t.(chunks := t.chunks + [call.arguments]);
      assert s.tools.byIndex[call.index := t][call.index := filled] == s.tools.byIndex[call.index := filled];
      assert to.tools == named.tools.Put(call.index, filled);
      ArgumentTracks(loads, named, to, calls + [call], call.index, call.arguments);
    }
  }

  lemma {:induction false} CallsTrack(loads: Loads, s: State, before: seq<CallDelta>, calls: seq<CallDelta>)
    requires s.tools.Valid() && Sourced(s, before) && StableCalls(before + calls) && ToolsEmitted(loads, s, {})
    requires StepCalls(s, calls).Next?
    ensures Sourced(StepCalls(s, calls).state, before + calls) && ToolsEmitted(loads, StepCalls(s, calls).state, {})
  {
    hide ToolsEmitted, Sourced, StepCall;
    if calls == [] {
      assert before + calls == before;
    } else {
      var init, call := calls[..|calls| - 1], calls[|calls| - 1];
      assert before + calls == before + init + [call];
      forall j, k | 0 <= j < |before + init| && 0 <= k < |before + init|
        ensures Agree((before + init)[j], (before + init)[k])
      {
        assert (before + calls)[j] == (before + init)[j] && (before + calls)[k] == (before + init)[k];
      }
      CallsTrack(loads, s, before, init);
      CallTracks(loads, StepCalls(s, init).state, before + init, call);
    }
  }

  function IndexSet(ns: seq<int>): set<int> {
    set n | n in ns
  }

  /** Ending tools changes neither which have begun nor their ids. */
  ghost predicate SameNames(a: ToolTable, b: ToolTable) {
    && a.order == b.order && a.byIndex.Keys == b.byIndex.Keys
    && forall i :: i in a.byIndex ==> a.byIndex[i].id == b.byIndex[i].id && a.byIndex[i].begun == b.byIndex[i].begun
  }

  ghost predicate BegunUntil(tools: ToolTable, n: nat)
    requires tools.Valid() && n <= |tools.order|
  {
    forall k :: 0 <= k < n ==> tools.order[k] in tools.byIndex && tools.byIndex[tools.order[k]].begun
  }

  lemma SameNamesThen(a: ToolTable, b: ToolTable, c: ToolTable, index: int)
    requires SameNames(a, b) && SameNames(b, c) && index in b.byIndex && b.byIndex[index].begun
    ensures SameNames(a, c) && index in a.byIndex && a.byIndex[index].begun
  {
  }

  lemma {:induction false} EndsTrack(loads: Loads, s: State, n: nat)
    requires s.tools.Valid() && n <= |s.tools.order| && EndTools(loads, s, n).Next?
    requires BegunApart(s.tools) && ToolsEmitted(loads, s, {})
    ensures var to := EndTools(loads, s, n).state;
            && ToolsEmitted(loads, to, IndexSet(s.tools.order[..n])) && SameNames(s.tools, to.tools)
            && BegunUntil(s.tools, n)
  {
    hide ToolsEmitted, EndTool, BegunApart, SameNames, IndexSet;
    if n == 0 {
      NoIndexes(s.tools.order);
      NamesRefl(s.tools);
    } else {
      EndsTrack(loads, s, n - 1);
      var before, index := EndTools(loads, s, n - 1).state, s.tools.order[n - 1];
      assert index in before.tools.order;
      var done := IndexSet(s.tools.order[..n - 1]);
      IndexSetNext(s.tools.order, n);
      NamesApart(s.tools, before.tools);
      EndTracks(loads, before, index, done);
      EndKeepsNames(loads, before, index);
      SameNamesThen(s.tools, before.tools, EndTool(loads, before, index).state.tools, index);
    }
  }

  lemma NoIndexes(order: seq<int>)
    ensures IndexSet(order[..0]) == {}
  {
  }

  lemma IndexSetNext(order: seq<int>, n: nat)
    requires 0 < n <= |order| && forall j, k :: 0 <= j < k < |order| ==> order[j] != order[k]
    ensures order[n - 1] !in IndexSet(order[..n - 1])
    ensures IndexSet(order[..n]) == IndexSet(order[..n - 1]) + {order[n - 1]}
  {
    assert order[..n] == order[..n - 1] + [order[n - 1]];
  }

  lemma NamesRefl(a: ToolTable)
    ensures SameNames(a, a)
  {
  }

  lemma NamesApart(a: ToolTable, b: ToolTable)
    requires SameNames(a, b) && BegunApart(a)
    ensures BegunApart(b)
  {
  }

  lemma EndKeepsNames(loads: Loads, s: State, index: int)
    requires s.tools.Valid() && index in s.tools.byIndex && EndTool(loads, s, index).Next?
    ensures SameNames(s.tools, EndTool(loads, s, index).state.tools) && s.tools.byIndex[index].begun
  {
  }

  lemma EndTracks(loads: Loads, s: State, index: int, done: set<int>)
    requires s.tools.Valid() && index in s.tools.byIndex && EndTool(loads, s, index).Next?
    requires index !in done && BegunApart(s.tools) && ToolsEmitted(loads, s, done)
    ensures ToolsEmitted(loads, EndTool(loads, s, index).state, done + {index})
  {
    var t := s.tools.byIndex[index];
    var ended := t.(arguments := ParseArguments(loads, t.chunks).value);
    var e := ToolEnd(t.id, ended.arguments);
    Emitted(s.events, e, t.id);
    PutEmits(loads, s, EndTool(loads, s, index).state, index, ended, e, done, done + {index});
  }

  /** All tools have begun and are finished. */
  ghost predicate AllFinished(loads: Loads, s: State) {
    && (forall i :: i in s.tools.byIndex ==> Finished(loads, s.events, s.tools.byIndex[i]))
    && (forall id :: NoToolHas(s.tools, id) ==> Silent(s.events, id))
  }

  lemma FinishTracks(loads: Loads, s: State)
    requires s.tools.Valid() && BegunApart(s.tools) && ToolsEmitted(loads, s, {})
    requires EndTools(loads, s, |s.tools.order|).Next?
    ensures AllFinished(loads, EndTools(loads, s, |s.tools.order|).state)
  {
    var n := |s.tools.order|;
    EndsTrack(loads, s, n);
    var to := EndTools(loads, s, n).state;
    assert s.tools.order[..n] == s.tools.order;
    forall i | i in to.tools.byIndex
      ensures i in IndexSet(s.tools.order) && to.tools.byIndex[i].begun
    {
      assert i in to.tools.order;
      var k :| 0 <= k < n && to.tools.order[k] == i;
    }
  }

  ghost predicate Tracked(loads: Loads, s: State, calls: seq<CallDelta>) {
    if s.finishSeen then AllFinished(loads, s) else Sourced(s, calls) && ToolsEmitted(loads, s, {})
  }

  lemma {:induction false} StepsTrack(loads: Loads, frames: seq<Frame>)
    requires StableCalls(AllCalls(frames)) && Steps(loads, frames).Next?
    ensures Tracked(loads, Steps(loads, frames).state, AllCalls(frames))
  {
    hide Step, Tracked;
    if frames == [] {
      InitialTracked(loads);
    } else {
      var init, frame := frames[..|frames| - 1], frames[|frames| - 1];
      var calls := AllCalls(init);
      var more := if frame.Chunk? && frame.delta.Some? then frame.delta.value.calls else [];
      assert AllCalls(frames) == calls + more;
      forall j, k | 0 <= j < |calls| && 0 <= k < |calls| ensures Agree(calls[j], calls[k]) {
        assert AllCalls(frames)[j] == calls[j] && AllCalls(frames)[k] == calls[k];
      }
      StepsTrack(loads, init);
      StepTracks(loads, Steps(loads, init).state, calls, frame, more);
    }
  }

  lemma InitialTracked(loads: Loads)
    ensures Tracked(loads, INITIAL, [])
  {
    forall id ensures Silent(INITIAL.events, id) {
      Emitted([], TurnStarted, id);
      assert [] + [TurnStarted] == INITIAL.events;
    }
  }

  lemma StepTracks(loads: Loads, s: State, calls: seq<CallDelta>, frame: Frame, more: seq<CallDelta>)
    requires s.tools.Valid() && Tracked(loads, s, calls) && StableCalls(calls + more) && Step(loads, s, frame).Next?
    requires more == if frame.Chunk? && frame.delta.Some? then frame.delta.value.calls else []
    ensures Tracked(loads, Step(loads, s, frame).state, calls + more)
  {
    hide AllFinished, Sourced, ToolsEmitted, StableCalls, StepCalls, EndTools, BegunApart;
    assert calls + [] == calls;
    if frame.Chunk? {
      var after := s;
      if frame.delta.Some? {
        var text := frame.delta.value.content;
        TextTracks(loads, s, calls, text);
        CallsTrack(loads, WithText(s, text), calls, more);
        CallsKeepFinish(WithText(s, text), more);
        after := StepCalls(WithText(s, text), more).state;
      }
      if frame.finish != "" {
        var finished := after.(finishSeen := true, stop := StopReason(frame.finish));
        FinishedSame(loads, after, finished, calls + more);
        FinishTracks(loads, finished);
        EndsKeepFinish(loads, finished, |finished.tools.order|);
      }
    } else {
      SameTracked(loads, s, Step(loads, s, frame).state, calls);
    }
  }

  lemma SameTracked(loads: Loads, s: State, to: State, calls: seq<CallDelta>)
    requires Tracked(loads, s, calls) && to.tools == s.tools && to.events == s.events && to.finishSeen == s.finishSeen
    ensures Tracked(loads, to, calls)
  {
  }

  lemma FinishedSame(loads: Loads, s: State, to: State, calls: seq<CallDelta>)
    requires Sourced(s, calls) && StableCalls(calls) && ToolsEmitted(loads, s, {})
    requires to.tools == s.tools && to.events == s.events
    ensures BegunApart(to.tools) && ToolsEmitted(loads, to, {})
  {
    SourcedApart(s, calls);
  }

  lemma TextTracks(loads: Loads, s: State, calls: seq<CallDelta>, text: string)
    requires Sourced(s, calls) && ToolsEmitted(loads, s, {})
    ensures Sourced(WithText(s, text), calls) && ToolsEmitted(loads, WithText(s, text), {})
  {
    if text != "" {
      var to := WithText(s, text);
      forall x ensures EmittedTo(s.events, TextDelta(text), x, to.events) { Emitted(s.events, TextDelta(text), x); }
      forall i | i in s.tools.byIndex && s.tools.byIndex[i].begun
        ensures EmittedTo(s.events, TextDelta(text), s.tools.byIndex[i].id, to.events)
      {
      }
    }
  }

  lemma {:induction false} CallsKeepFinish(s: State, calls: seq<CallDelta>)
    requires s.tools.Valid()
    ensures StepCalls(s, calls).state.finishSeen == s.finishSeen
  {
    if calls != [] { CallsKeepFinish(s, calls[..|calls| - 1]); }
  }

  lemma {:induction false} EndsKeepFinish(loads: Loads, s: State, n: nat)
    requires s.tools.Valid() && n <= |s.tools.order|
    ensures EndTools(loads, s, n).state.finishSeen == s.finishSeen
  {
    if n > 0 { EndsKeepFinish(loads, s, n - 1); }
  }

  /** With stable ids, each use is the tool begun under its id, its arguments the parse of its deltas. */
  lemma UsesAreTheirDeltas(loads: Loads, frames: seq<Frame>, broken: Option<string>)
    requires StableCalls(AllCalls(frames)) && Emission(loads, frames, broken).1
    ensures UsesMatchDeltas(loads, Emission(loads, frames, broken).0, Uses(Steps(loads, frames).state.tools))
  {
    hide StepsFrom, AllCalls;
    var s := Steps(loads, frames).state;
    StepsTrack(loads, frames);
    var end := [TurnCompleted(s.stop), Message(Concat(s.textParts), s.stop)];
    assert s.events + (end + Uses(s.tools)) == s.events + end + Uses(s.tools);
    FinishedToolsMatch(loads, s.events, end + Uses(s.tools), s.tools);
  }
}
