/** How the agent loop ends the turn of an OpenAI completion, streamed or whole. */
module OpenAITurns {
  import opened Wrappers
  import opened Events
  import opened StreamEvents
  import opened OpenAIStreams
  import opened OpenAILaws
  import opened OpenAIIngestion
  import opened StreamReplies
  import opened SessionState
  import opened LoopSpecs
  import opened Text

  /** The last finish reason that is not empty. */
  function FinishOf(frames: seq<Frame>): string {
    if frames == [] then ""
    else
      var f := frames[|frames| - 1];
      if f.Chunk? && f.finish != "" then f.finish else FinishOf(frames[..|frames| - 1])
  }

  lemma {:induction false} CallsKeepStop(s: State, calls: seq<CallDelta>)
    requires s.tools.Valid()
    ensures StepCalls(s, calls).state.stop == s.stop && StepCalls(s, calls).state.finishSeen == s.finishSeen
  {
    if calls != [] { CallsKeepStop(s, calls[..|calls| - 1]); }
  }

  lemma {:induction false} EndsKeepStop(loads: Loads, s: State, n: nat)
    requires s.tools.Valid() && n <= |s.tools.order|
    ensures EndTools(loads, s, n).state.stop == s.stop && EndTools(loads, s, n).state.finishSeen == s.finishSeen
  {
    if n > 0 { EndsKeepStop(loads, s, n - 1); }
  }

  /** Once the finish reason is seen, the stop is its translation. */
  lemma {:induction false} StopFollowsFinish(loads: Loads, frames: seq<Frame>)
    requires Steps(loads, frames).Next? && Steps(loads, frames).state.finishSeen
    ensures Steps(loads, frames).state.stop == StopReason(FinishOf(frames)) && FinishOf(frames) != ""
  {
    hide StepCalls, EndTools, StopReason;
    var n := |frames| - 1;
    var s, f := Steps(loads, frames[..n]).state, frames[n];
    if f.Chunk? {
      var after :=
        if f.delta.Some? then StepCalls(WithText(s, f.delta.value.content), f.delta.value.calls).state else s;
      if f.delta.Some? { CallsKeepStop(WithText(s, f.delta.value.content), f.delta.value.calls); }
      if f.finish != "" {
        EndsKeepStop(loads, after.(finishSeen := true, stop := StopReason(f.finish)), |after.tools.order|);
      } else {
        StopFollowsFinish(loads, frames[..n]);
      }
    } else {
      StopFollowsFinish(loads, frames[..n]);
    }
  }

  /** The stop a completion is kept with. */
  lemma StreamedStop(loads: Loads, frames: seq<Frame>)
    requires Emission(loads, frames, None).1
    ensures var kept, finish := Kept(Emission(loads, frames, None).0), FinishOf(frames);
            && kept != [] && kept[0].Message? && (forall k :: 1 <= k < |kept| ==> kept[k].Use?)
            && (finish in {"tool_calls", "function_call"} ==> kept[0].stop == "tool_use")
            && (finish == "stop" ==> kept[0].stop == "end_turn")
            && (finish == "length" ==> kept[0].stop == "max_tokens")
            && (finish == "content_filter" ==> kept[0].stop == "refusal")
            && (finish !in {"tool_calls", "function_call", "stop", "length", "content_filter"} ==>
                  kept[0].stop == "other")
  {
    hide StepsFrom, Kept, Uses, FinishOf;
    var end := Steps(loads, frames).state;
    StepsUnderway(loads, frames);
    StopFollowsFinish(loads, frames);
    KeptAfterProgress(end.events, end.textParts, end.stop, Uses(end.tools));
    UsesFollow(end, Kept(Emission(loads, frames, None).0));
  }

  lemma UsesFollow(s: State, kept: seq<StreamEvent>)
    requires s.tools.Valid() && kept == [Message(Concat(s.textParts), s.stop)] + Uses(s.tools)
    ensures forall k :: 1 <= k < |kept| ==> kept[k].Use?
  {
    hide Uses;
    forall k | 1 <= k < |kept| ensures kept[k].Use? {
      assert kept[k] == Uses(s.tools)[k - 1] && kept[k] in Uses(s.tools);
    }
  }

  /**
    A streamed completion that finished with tool_calls or function_call ends its turn with tool_use, and its
    calls stay open to be run. Any other that made calls is closed as incomplete.
    */
  lemma StreamedTurn(
    loads: Loads, frames: seq<Frame>, log: seq<Event>, mid: seq<Event>, stop: string, after: seq<Event>)
    requires Emission(loads, frames, None).1
    requires mid == AddAll(log, Logged(Kept(Emission(loads, frames, None).0)))
    requires ClosedTurn(mid, |log|, stop, after)
    ensures FinishOf(frames) in {"tool_calls", "function_call"} ==> stop == "tool_use" && after == mid
    ensures FinishOf(frames) !in {"tool_calls", "function_call"} ==>
              (stop == "incomplete_tool_batch" <==> |Kept(Emission(loads, frames, None).0)| > 1)
  {
    hide Emission, Kept, Logged, AddAll, FinishOf, OpenCalls, CloseResults;
    StreamedStop(loads, frames);
    LoggedTurn(log, Kept(Emission(loads, frames, None).0));
  }

  /** The same of a whole completion. */
  lemma IngestedTurn(loads: Loads, choice: Choice, log: seq<Event>, mid: seq<Event>, stop: string, after: seq<Event>)
    requires mid == AddAll(log, Logged(IngestedChoice(loads, choice))) && ClosedTurn(mid, |log|, stop, after)
    ensures choice.finish in {"tool_calls", "function_call"} ==> stop == "tool_use" && after == mid
    ensures choice.finish == "stop" ==> LastStop(mid) == "end_turn"
    ensures choice.finish == "length" ==> LastStop(mid) == "max_tokens"
    ensures choice.finish == "content_filter" ==> LastStop(mid) == "refusal"
    ensures choice.finish !in {"tool_calls", "function_call", "stop", "length", "content_filter"} ==>
              LastStop(mid) == "other"
    ensures choice.finish !in {"tool_calls", "function_call"} ==>
              (stop == "incomplete_tool_batch" <==> choice.calls != [])
  {
    hide Logged, AddAll, LastStop, OpenCalls, CloseResults;
    LoggedTurn(log, IngestedChoice(loads, choice));
  }
}
