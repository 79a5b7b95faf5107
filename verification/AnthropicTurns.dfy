/** How the agent loop ends the turn of an Anthropic message, streamed or whole. */
module AnthropicTurns {
  import opened Wrappers
  import opened Events
  import opened StreamEvents
  import opened AnthropicStreams
  import opened AnthropicLaws
  import opened AnthropicIngestion
  import opened StreamReplies
  import opened SessionState
  import opened LoopSpecs
  import opened Text

  /** The last stop reason that is not empty. */
  function StopOf(frames: seq<Frame>): string {
    if frames == [] then ""
    else
      var f := frames[|frames| - 1];
      if f.MessageDelta? && f.stopReason != "" then f.stopReason else StopOf(frames[..|frames| - 1])
  }

  lemma {:induction false} StopFollowsFrames(loads: Loads, frames: seq<Frame>)
    requires Steps(loads, frames).Next? && Steps(loads, frames).state.stopSeen
    ensures Steps(loads, frames).state.stop == StopReason(StopOf(frames)) && StopOf(frames) != ""
  {
    hide ParseArguments, StopReason;
    var n := |frames| - 1;
    var before := Steps(loads, frames[..n]);
    if !(frames[n].MessageDelta? && frames[n].stopReason != "") { StopFollowsFrames(loads, frames[..n]); }
  }

  /** The stop a message is kept with: one of the five the program knows, or other. */
  lemma StreamedStop(loads: Loads, frames: seq<Frame>)
    requires Emission(loads, frames, None).1
    ensures var kept, stop := Kept(Emission(loads, frames, None).0), StopOf(frames);
            && kept != [] && kept[0].Message? && (forall k :: 1 <= k < |kept| ==> kept[k].Use?)
            && kept[0].stop == (if stop in {"end_turn", "max_tokens", "tool_use", "stop_sequence", "refusal"} then stop
                                else "other")
  {
    hide StepsFrom, Kept, Uses, StopOf;
    var end := Steps(loads, frames).state;
    StepsKeepTable(loads, frames);
    StepsEmitProgress(loads, frames);
    StopFollowsFrames(loads, frames);
    KeptAfterProgress(end.events, end.textParts, end.stop, Uses(end.tools));
    UsesFollow(end, Kept(Emission(loads, frames, None).0));
  }

  lemma UsesFollow(s: State, kept: seq<StreamEvent>)
    requires s.tools.Valid() && kept == [Message(Concat(s.textParts), s.stop)] + Uses(s.tools)
    ensures forall k :: 1 <= k < |kept| ==> kept[k].Use?
  {
    hide Uses;
    forall k | 1 <= k < |kept| ensures kept[k].Use? {
      assert kept[k] == Uses(s.tools)[k - 1] && kept[k] in Uses(s.tools);
    }
  }

  /** A streamed message that stopped in tool_use leaves its calls open to be run; any other with calls is closed. */
  lemma StreamedTurn(
    loads: Loads, frames: seq<Frame>, log: seq<Event>, mid: seq<Event>, stop: string, after: seq<Event>)
    requires Emission(loads, frames, None).1
    requires mid == AddAll(log, Logged(Kept(Emission(loads, frames, None).0)))
    requires ClosedTurn(mid, |log|, stop, after)
    ensures StopOf(frames) == "tool_use" ==> stop == "tool_use" && after == mid
    ensures StopOf(frames) != "tool_use" ==>
              (stop == "incomplete_tool_batch" <==> |Kept(Emission(loads, frames, None).0)| > 1)
  {
    hide Emission, Kept, Logged, AddAll, StopOf, OpenCalls, CloseResults;
    StreamedStop(loads, frames);
    LoggedTurn(log, Kept(Emission(loads, frames, None).0));
  }

  /** The same of a whole message. */
  lemma IngestedTurn(
    content: seq<ContentBlock>, stopReason: string, log: seq<Event>, mid: seq<Event>, stop: string, after: seq<Event>)
    requires mid == AddAll(log, Logged(IngestedMessage(content, stopReason))) && ClosedTurn(mid, |log|, stop, after)
    ensures LastStop(mid) == (if stopReason in {"end_turn", "max_tokens", "tool_use", "stop_sequence", "refusal"}
                              then stopReason else "other")
    ensures stopReason == "tool_use" ==> stop == "tool_use" && after == mid
    ensures stopReason != "tool_use" ==>
              (stop == "incomplete_tool_batch" <==> exists b :: b in content && b.ToolContent?)
  {
    hide Logged, AddAll, LastStop, OpenCalls, CloseResults, ContentUses, ContentTexts;
    UsesOfContent(content);
    LoggedTurn(log, IngestedMessage(content, stopReason));
  }

  lemma {:induction false} UsesOfContent(content: seq<ContentBlock>)
    ensures forall e :: e in ContentUses(content) ==> e.Use?
    ensures ContentUses(content) == [] <==> forall b :: b in content ==> !b.ToolContent?
  {
    if content != [] {
      var init, b := content[..|content| - 1], content[|content| - 1];
      assert content == init + [b];
      UsesOfContent(init);
    }
  }
}
