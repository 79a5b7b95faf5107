/**
  What every streamed Gemini response keeps, and where it parts from the buffered one: its stop reason is
  never tool_use, so the agent loop closes its calls instead of running them, and its call ids repeat.
  */
module GeminiLaws {
  import opened Wrappers
  import opened JsonValues
  import opened Events
  import opened StreamEvents
  import opened GeminiStreams
  import opened StreamReplies
  import opened SessionState
  import opened LoopSpecs
  import opened Text
  import CanonicalJsonLaws

  // ---- Shape -----------------------------------------------------------------------------------------------

  lemma PartUnderway(s: State, part: Part)
    requires Underway(s.events, s.textParts)
    ensures var to := StepPart(s, part).state; Underway(to.events, to.textParts)
  {
    hide Underway;
    var read := WithText(s, part.text);
    if part.text != "" { UnderwayMore(s.events, s.textParts, TextDelta(part.text)); }
    if part.field.Calls? {
      var tool := NewCall(|read.calls|, part.field.call);
      assert read.textParts + [] == read.textParts;
      UnderwayMore(read.events, read.textParts, ToolBegin(tool.id, tool.name));
      UnderwayMore(read.events + [ToolBegin(tool.id, tool.name)], read.textParts, ToolEnd(tool.id, tool.arguments));
    }
  }

  lemma {:induction false} PartsUnderway(s: State, parts: seq<Part>)
    requires Underway(s.events, s.textParts)
    ensures var to := StepParts(s, parts).state; Underway(to.events, to.textParts)
  {
    hide Underway, StepPart;
    if parts != [] {
      PartsUnderway(s, parts[..|parts| - 1]);
      var before := StepParts(s, parts[..|parts| - 1]);
      if before.Next? { PartUnderway(before.state, parts[|parts| - 1]); }
    }
  }

  lemma {:induction false} StepsUnderway(frames: seq<Frame>)
    ensures var to := Steps(frames).state; Underway(to.events, to.textParts)
  {
    if frames != [] {
      StepsUnderway(frames[..|frames| - 1]);
      var before, frame := Steps(frames[..|frames| - 1]), frames[|frames| - 1];
      if before.Next? && frame.Chunk? { PartsUnderway(before.state, frame.parts); }
    }
  }

  /** Started, deltas, and then either a completed turn with what the log keeps, or one failure and nothing kept. */
  lemma EveryStreamIsWellShaped(frames: seq<Frame>, broken: Option<string>)
    ensures var (events, ok) := Emission(frames, broken); WellShaped(events, ok)
  {
    hide Steps;
    var end := Steps(frames);
    var (events, ok) := Emission(frames, broken);
    StepsUnderway(frames);
    if ok {
      UnderwayCompletes(end.state.events, end.state.textParts, end.state.stop, CallUses(end.state.calls));
    } else {
      UnderwayFails(end.state.events, end.state.textParts, events[|events| - 1].error);
    }
  }

  // ---- The response read back ------------------------------------------------------------------------------

  function AllParts(frames: seq<Frame>): seq<Part> {
    if frames == [] then []
    else
      var f := frames[|frames| - 1];
      AllParts(frames[..|frames| - 1]) + (if f.Chunk? then f.parts else [])
  }

  function PartTexts(parts: seq<Part>): seq<string> {
    if parts == [] then [] else PartTexts(parts[..|parts| - 1]) + [parts[|parts| - 1].text]
  }

  function CallsOf(parts: seq<Part>): seq<FunctionCall> {
    if parts == [] then []
    else
      var p := parts[|parts| - 1];
      CallsOf(parts[..|parts| - 1]) + (if p.field.Calls? then [p.field.call] else [])
  }

  /** The calls with ids by their position in the response. */
  function NumberedCalls(calls: seq<FunctionCall>): (r: seq<Tool>)
    ensures |r| == |calls| && forall k :: 0 <= k < |r| ==> r[k] == NewCall(k, calls[k])
  {
    seq(|calls|, k requires 0 <= k < |calls| => NewCall(k, calls[k]))
  }

  /** The last finish reason that is not empty. */
  function Finish(frames: seq<Frame>): string {
    if frames == [] then ""
    else
      var f := frames[|frames| - 1];
      if f.Chunk? && f.finish != "" then f.finish else Finish(frames[..|frames| - 1])
  }

  ghost predicate Read(s: State, parts: seq<Part>) {
    Concat(s.textParts) == Concat(PartTexts(parts)) && s.calls == NumberedCalls(CallsOf(parts))
  }

  lemma PartRead(s: State, parts: seq<Part>, part: Part)
    requires Read(s, parts) && StepPart(s, part).Next?
    ensures Read(StepPart(s, part).state, parts + [part])
  {
    hide Concat, PartTexts, CallsOf, NumberedCalls;
    NextText(parts, part);
    NextCalls(parts, part);
    if part.text != "" { NextPart(s.textParts, part.text); }
  }

  /** One part more: its text joins the others, and its call is numbered after them. */
  lemma NextText(parts: seq<Part>, part: Part)
    ensures Concat(PartTexts(parts + [part])) == Concat(PartTexts(parts)) + part.text
  {
    hide Concat;
    assert (parts + [part])[..|parts|] == parts;
    NextPart(PartTexts(parts), part.text);
  }

  lemma NextCalls(parts: seq<Part>, part: Part)
    ensures NumberedCalls(CallsOf(parts + [part]))
         == NumberedCalls(CallsOf(parts))
            + (if part.field.Calls? then [NewCall(|CallsOf(parts)|, part.field.call)] else [])
    ensures |NumberedCalls(CallsOf(parts))| == |CallsOf(parts)|
  {
    hide NewCall;
    assert (parts + [part])[..|parts|] == parts;
    if !part.field.Calls? { assert CallsOf(parts) + [] == CallsOf(parts); }
  }

  lemma {:induction false} PartsRead(s: State, before: seq<Part>, parts: seq<Part>)
    requires Read(s, before) && StepParts(s, parts).Next?
    ensures Read(StepParts(s, parts).state, before + parts)
  {
    hide Read, StepPart;
    if parts == [] {
      assert before + parts == before;
    } else {
      var init := parts[..|parts| - 1];
      PartsRead(s, before, init);
      PartRead(StepParts(s, init).state, before + init, parts[|parts| - 1]);
      assert before + init + [parts[|parts| - 1]] == before + parts;
    }
  }

  lemma {:induction false} StepsRead(frames: seq<Frame>)
    requires Steps(frames).Next?
    ensures var s := Steps(frames).state;
            && Read(s, AllParts(frames)) && (s.finishSeen <==> Finish(frames) != "")
            && (s.finishSeen ==> s.stop == StopReason(Finish(frames)))
  {
    if frames != [] {
      hide Read, StepParts;
      var init, f := frames[..|frames| - 1], frames[|frames| - 1];
      StepsRead(init);
      var s := Steps(init).state;
      PartsRead(s, AllParts(init), f.parts);
      PartsKeepFinish(s, f.parts);
      SameRead(StepParts(s, f.parts).state, Steps(frames).state, AllParts(frames));
    }
  }

  lemma SameRead(s: State, to: State, parts: seq<Part>)
    requires Read(s, parts) && to.textParts == s.textParts && to.calls == s.calls
    ensures Read(to, parts)
  {
  }

  lemma {:induction false} PartsKeepFinish(s: State, parts: seq<Part>)
    ensures var to := StepParts(s, parts).state; to.finishSeen == s.finishSeen && to.stop == s.stop
  {
    if parts != [] { PartsKeepFinish(s, parts[..|parts| - 1]); }
  }

  /** A successful stream keeps the joined text, and every function call in order, numbered from zero. */
  lemma StreamKeepsItsParts(frames: seq<Frame>, broken: Option<string>)
    requires Emission(frames, broken).1
    ensures Kept(Emission(frames, broken).0)
         == [Message(Concat(PartTexts(AllParts(frames))), StopReason(Finish(frames)))]
            + CallUses(NumberedCalls(CallsOf(AllParts(frames))))
  {
    hide Kept, Steps;
    var s := Steps(frames).state;
    StepsUnderway(frames);
    StepsRead(frames);
    KeptAfterProgress(s.events, s.textParts, s.stop, CallUses(s.calls));
  }

  // ---- Begins and ends -----------------------------------------------------------------------------------------

  /** Every call so far was begun and ended once under its number, and no later number was used. */
  ghost predicate Announced(s: State) {
    && (forall k :: 0 <= k < |s.calls| ==>
          && s.calls[k].id == CallId(k)
          && Begins(s.events, CallId(k)) == [s.calls[k].name] && Ends(s.events, CallId(k)) == [s.calls[k].arguments])
    && (forall k: nat :: k >= |s.calls| ==> Silent(s.events, CallId(k)))
  }

  lemma IdsDiffer(a: nat, b: nat)
    requires CallId(a) == CallId(b)
    ensures a == b
  {
    assert CallId(a)[|"gemini_fc_"|..] == NatText(a) && CallId(b)[|"gemini_fc_"|..] == NatText(b);
    CanonicalJsonLaws.NatTextInjective(a, b);
  }

  lemma TextAnnounced(s: State, text: string)
    requires Announced(s)
    ensures Announced(WithText(s, text))
  {
    hide CallId;
    var to := WithText(s, text);
    if text != "" {
      forall k: nat ensures EmittedTo(s.events, TextDelta(text), CallId(k), to.events) {
        Emitted(s.events, TextDelta(text), CallId(k));
      }
      forall k | 0 <= k < |s.calls|
        ensures EmittedTo(s.events, TextDelta(text), CallId(k), to.events)
      {
      }
    }
  }

  /** What a call emits under each number. */
  lemma CallEmits(events: seq<StreamEvent>, tool: Tool, n: nat, k: nat)
    requires tool.id == CallId(n)
    ensures var to := events + [ToolBegin(tool.id, tool.name)] + [ToolEnd(tool.id, tool.arguments)];
            && ArgumentChunks(to, CallId(k)) == ArgumentChunks(events, CallId(k))
            && Begins(to, CallId(k)) == Begins(events, CallId(k)) + (if k == n then [tool.name] else [])
            && Ends(to, CallId(k)) == Ends(events, CallId(k)) + (if k == n then [tool.arguments] else [])
  {
    hide CallId;
    var first, second := ToolBegin(tool.id, tool.name), ToolEnd(tool.id, tool.arguments);
    Emitted(events, first, CallId(k));
    Emitted(events + [first], second, CallId(k));
    if CallId(k) == CallId(n) { IdsDiffer(k, n); }
  }

  lemma CallAnnounced(s: State, call: FunctionCall)
    requires Announced(s)
    ensures Announced(WithCall(s, call))
  {
    hide CallId, Begins, Ends, ArgumentChunks;
    var n, to := |s.calls|, WithCall(s, call);
    forall k | 0 <= k < |to.calls|
      ensures to.calls[k].id == CallId(k)
      ensures Begins(to.events, CallId(k)) == [to.calls[k].name]
      ensures Ends(to.events, CallId(k)) == [to.calls[k].arguments]
    {
      CallEmits(s.events, NewCall(n, call), n, k);
    }
    forall k: nat | k > n ensures Silent(to.events, CallId(k)) {
      CallEmits(s.events, NewCall(n, call), n, k);
    }
  }

  lemma {:induction false} PartsAnnounced(s: State, parts: seq<Part>)
    requires Announced(s) && StepParts(s, parts).Next?
    ensures Announced(StepParts(s, parts).state)
  {
    hide Announced, WithText, WithCall;
    if parts != [] {
      PartsAnnounced(s, parts[..|parts| - 1]);
      var before, part := StepParts(s, parts[..|parts| - 1]).state, parts[|parts| - 1];
      TextAnnounced(before, part.text);
      if part.field.Calls? { CallAnnounced(WithText(before, part.text), part.field.call); }
    }
  }

  /** Every call of a response is begun and ended exactly once, with its own name and arguments. */
  lemma {:induction false} CallsAnnouncedOnce(frames: seq<Frame>)
    requires Steps(frames).Next?
    ensures Announced(Steps(frames).state)
  {
    hide Announced, StepParts;
    if frames == [] {
      NothingAnnounced();
    } else {
      var init, f := frames[..|frames| - 1], frames[|frames| - 1];
      CallsAnnouncedOnce(init);
      PartsAnnounced(Steps(init).state, f.parts);
      SameAnnounced(StepParts(Steps(init).state, f.parts).state, Steps(frames).state);
    }
  }

  lemma NothingAnnounced()
    ensures Announced(INITIAL)
  {
    forall k: nat ensures Silent(INITIAL.events, CallId(k)) {
      Emitted([], TurnStarted, CallId(k));
      assert [] + [TurnStarted] == INITIAL.events;
    }
  }

  lemma SameAnnounced(s: State, to: State)
    requires Announced(s) && to.events == s.events && to.calls == s.calls
    ensures Announced(to)
  {
  }

  // ---- The stop reason ---------------------------------------------------------------------------------------

  /** The buffered ingestor answers tool_use as soon as a part carries the key, even for an empty call. */
  function BufferedStop(parts: seq<Part>, finish: string): string {
    if exists p :: p in parts && !p.field.NoKey? then "tool_use" else StopReason(finish)
  }

  /** The stop a streamed response is kept with, and the stop of the same response buffered. */
  lemma StopsOf(frames: seq<Frame>, broken: Option<string>)
    requires Emission(frames, broken).1
    ensures var kept, finish, parts := Kept(Emission(frames, broken).0), Finish(frames), AllParts(frames);
            && kept != [] && kept[0].Message?
            && (finish == "STOP" ==> kept[0].stop == "end_turn")
            && (finish == "MAX_TOKENS" ==> kept[0].stop == "max_tokens")
            && (finish in {"SAFETY", "RECITATION"} ==> kept[0].stop == "refusal")
            && (finish !in {"STOP", "MAX_TOKENS", "SAFETY", "RECITATION"} ==> kept[0].stop == "other")
            && (if exists p :: p in parts && (p.field.EmptyCall? || p.field.Calls?)
                then BufferedStop(parts, finish) == "tool_use" else BufferedStop(parts, finish) == kept[0].stop)
  {
    hide Kept, Emission, AllParts, CallsOf, Finish;
    StreamKeepsItsParts(frames, broken);
  }

  /** Streamed and buffered stop reasons agree exactly on responses in which no part carries a functionCall key. */
  lemma StopsAgreeIff(frames: seq<Frame>, broken: Option<string>)
    requires Emission(frames, broken).1
    ensures var kept := Kept(Emission(frames, broken).0);
            && kept != [] && kept[0].Message?
            && (kept[0].stop == BufferedStop(AllParts(frames), Finish(frames))
                <==> forall p :: p in AllParts(frames) ==> p.field.NoKey?)
  {
    hide Kept, Emission, AllParts, CallsOf;
    StreamKeepsItsParts(frames, broken);
  }

  /** The two also differ without any call: an empty functionCall makes only the buffered stop tool_use. */
  lemma EmptyCallStopsDiffer()
    ensures var frames := [Chunk([Part("x", NoKey), Part("", EmptyCall)], "STOP")];
            && Emission(frames, None).1 && CallsOf(AllParts(frames)) == []
            && Kept(Emission(frames, None).0) == [Message("x", "end_turn")]
            && BufferedStop(AllParts(frames), Finish(frames)) == "tool_use"
  {
    hide Kept, Concat, Texts, AllParts, PartTexts, CallsOf, StepParts, Finish, Steps;
    var first, second := Part("x", NoKey), Part("", EmptyCall);
    OneFrame([first, second], "STOP");
    OneOrTwoParts(INITIAL, first, second);
    assert StepParts(INITIAL, [first, second]).Next?;
    StreamKeepsItsParts([Chunk([first, second], "STOP")], None);
    assert second in [first, second];
    Joined("x", "");
    assert "x" + "" == "x";
    assert [Message("x", "end_turn")] + CallUses(NumberedCalls([])) == [Message("x", "end_turn")];
  }

  /** A streamed response with a call: it stops with end_turn, so the agent loop closes the call. */
  lemma StreamedCallStopsWithEndTurn()
    ensures var call := FunctionCall("f", EMPTY_DICT);
            var frames := [Chunk([Part("", Calls(call))], "STOP")];
            && Emission(frames, None).1
            && Kept(Emission(frames, None).0) == [Message("", "end_turn"), Use(TextId(CallId(0)), "f", EMPTY_DICT)]
            && BufferedStop(AllParts(frames), Finish(frames)) == "tool_use"
  {
    hide Kept, Texts, Concat, NatText, AllParts, PartTexts, CallsOf, StepParts, Finish, Steps;
    var part := Part("", Calls(FunctionCall("f", EMPTY_DICT)));
    OneFrame([part], "STOP");
    OneOrTwoParts(INITIAL, part, part);
    assert StepParts(INITIAL, [part]).Next?;
    StreamKeepsItsParts([Chunk([part], "STOP")], None);
    assert part in [part];
    Joined("", "");
    assert CallUses(NumberedCalls([FunctionCall("f", EMPTY_DICT)])) == [Use(TextId(CallId(0)), "f", EMPTY_DICT)];
  }

  lemma OneOrTwoParts(s: State, a: Part, b: Part)
    ensures StepParts(s, [a]) == StepPart(s, a)
    ensures StepPart(s, a).Next? ==> StepParts(s, [a, b]) == StepPart(StepPart(s, a).state, b)
    ensures PartTexts([a]) == [a.text] && PartTexts([a, b]) == [a.text, b.text]
    ensures CallsOf([a]) == if a.field.Calls? then [a.field.call] else []
    ensures !a.field.Calls? && !b.field.Calls? ==> CallsOf([a, b]) == []
  {
    hide StepPart;
    assert [a][..0] == [] && [a, b][..1] == [a];
  }

  lemma Joined(a: string, b: string)
    ensures Concat([a]) == a && Concat([a, b]) == a + b
  {
    assert [a][..0] == [] && [a, b][..1] == [a];
  }

  /** A response in one frame. */
  lemma OneFrame(parts: seq<Part>, finish: string)
    ensures var frames := [Chunk(parts, finish)];
            && AllParts(frames) == parts && Finish(frames) == finish
            && Steps(frames) == GeminiStreams.Step(INITIAL, frames[0])
  {
    var frames := [Chunk(parts, finish)];
    assert frames[..0] == [];
    assert [] + parts == parts;
  }

  /** The agent loop runs none of the calls of a streamed response: it closes them as incomplete. */
  lemma StreamedCallsAreClosed(frames: seq<Frame>, log: seq<Event>, mid: seq<Event>, stop: string, after: seq<Event>)
    requires Emission(frames, None).1
    requires mid == AddAll(log, Logged(Kept(Emission(frames, None).0)))
    requires ClosedTurn(mid, |log|, stop, after)
    ensures stop == "incomplete_tool_batch" <==> CallsOf(AllParts(frames)) != []
  {
    hide *;
    var kept := Kept(Emission(frames, None).0);
    StreamKeepsItsParts(frames, None);
    CallsKept(kept, AllParts(frames), Finish(frames));
    LoggedTurn(log, kept);
    ClosedTurnEnd(mid, |log|, stop, after);
  }

  lemma CallsKept(kept: seq<StreamEvent>, parts: seq<Part>, finish: string)
    requires kept == [Message(Concat(PartTexts(parts)), StopReason(finish))] + CallUses(NumberedCalls(CallsOf(parts)))
    ensures kept != [] && kept[0].Message? && kept[0].stop !in {"tool_use", "incomplete_tool_batch"}
    ensures forall k :: 1 <= k < |kept| ==> kept[k].Use?
    ensures |kept| == 1 <==> CallsOf(parts) == []
  {
  }

  lemma ClosedTurnEnd(mid: seq<Event>, turnStart: nat, stop: string, after: seq<Event>)
    requires turnStart <= |mid| && ClosedTurn(mid, turnStart, stop, after)
    ensures LastStop(mid) !in {"tool_use", "incomplete_tool_batch"} ==>
              (stop == "incomplete_tool_batch" <==> OpenCalls(mid[turnStart..], {}) != [])
  {
  }

  /** Each kept call is a use under its number, with its name, and its arguments where they are an object. */
  lemma UsesAre(calls: seq<FunctionCall>, k: nat)
    requires k < |calls|
    ensures CallUses(NumberedCalls(calls))[k]
         == Use(TextId("gemini_fc_" + NatText(k)), calls[k].name,
                if calls[k].args.Dict? then calls[k].args else Dict([]))
  {
  }
}
