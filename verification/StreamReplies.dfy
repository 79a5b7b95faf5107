/** What the agent loop's log gets from a streamed turn. */
module StreamReplies {
  import opened Events
  import opened StreamEvents
  import opened LogHistory
  import opened SessionState
  import opened LoopSpecs
  import RetryPolicies

  /** A kept event as the payload that is appended; token usage is not followed here. */
  function LoggedOne(e: StreamEvent): Payload
    requires IsDurable(e)
  {
    if e.Message? then AssistantMessage(e.text, e.stop, Usage(0, 0, 0)) else ToolUse(e.useId, e.name, e.arguments)
  }

  function Logged(kept: seq<StreamEvent>): (r: seq<Payload>)
    requires forall e :: e in kept ==> IsDurable(e)
    ensures |r| == |kept| && forall k :: 0 <= k < |r| ==> IsDurable(kept[k]) && r[k] == LoggedOne(kept[k])
  {
    if kept == [] then []
    else
      assert kept[|kept| - 1] in kept;
      Logged(kept[..|kept| - 1]) + [LoggedOne(kept[|kept| - 1])]
  }

  /** The reply of a streamed provider call: the kept events of a success, or the error. */
  function ReplyOf(events: seq<StreamEvent>, ok: bool, error: RetryPolicies.CallError): Reply {
    if ok then Response(Logged(Kept(events))) else Error(error)
  }

  /** A failed stream appends nothing, a successful one its message and then its calls. */
  lemma StreamedReply(events: seq<StreamEvent>, ok: bool, error: RetryPolicies.CallError)
    requires WellShaped(events, ok)
    ensures !ok ==> Kept(events) == []
    ensures var reply := ReplyOf(events, ok, error);
            ok ==> && reply.Response? && reply.events != [] && reply.events[0].AssistantMessage?
                   && (forall k :: 1 <= k < |reply.events| ==> reply.events[k].ToolUse?)
                   && (forall p :: p in reply.events ==> IngestedPayload(p))
  {
    hide Kept, WellShaped, Logged;
    KeptByShape(events, ok);
    if ok {
      var kept, logged := Kept(events), Logged(Kept(events));
      forall k | 1 <= k < |logged| ensures logged[k].ToolUse? {
        assert kept[k] == kept[1..][k - 1] && kept[k] in kept[1..];
      }
    }
  }

  lemma {:induction false} LastStopOfTurn(log: seq<Event>, payloads: seq<Payload>)
    requires payloads != [] && payloads[0].AssistantMessage?
    requires forall k :: 1 <= k < |payloads| ==> payloads[k].ToolUse?
    ensures LastStop(AddAll(log, payloads)) == payloads[0].stopReason
  {
    var n := |payloads| - 1;
    var before := AddAll(log, payloads[..n]);
    assert AddAll(log, payloads) == Add(before, payloads[n]);
    assert Add(before, payloads[n])[..|before|] == before;
    if n > 0 { LastStopOfTurn(log, payloads[..n]); }
  }

  /** A turn of one message and uses: its stop reason, and whether it made calls. */
  lemma LoggedTurn(log: seq<Event>, kept: seq<StreamEvent>)
    requires (forall e :: e in kept ==> IsDurable(e)) && kept != [] && kept[0].Message?
    requires forall k :: 1 <= k < |kept| ==> kept[k].Use?
    ensures var mid := AddAll(log, Logged(kept));
            && LastStop(mid) == kept[0].stop
            && (OpenCalls(mid[|log|..], {}) == [] <==> |kept| == 1)
  {
    hide LastStop, OpenCalls, AddAll, Logged;
    var logged := Logged(kept);
    var mid := AddAll(log, logged);
    LastStopOfTurn(log, logged);
    NoOpenCalls(mid[|log|..], {});
    AddAllAt(log, logged, 0);
    if |kept| > 1 {
      AddAllAt(log, logged, 1);
      assert mid[|log|..][1] in mid[|log|..];
    } else {
      assert mid[|log|..] == [mid[|log|]];
    }
  }

  /** The log gets the message with its text and stop reason, and each use as a call with its id, name and arguments. */
  lemma LoggedAs(log: seq<Event>, kept: seq<StreamEvent>, k: nat)
    requires (forall e :: e in kept ==> IsDurable(e)) && k < |kept|
    ensures var after := AddAll(log, Logged(kept));
            && |after| == |log| + |kept|
            && match kept[k]
               case Message(text, stop) =>
                 after[|log| + k].payload == AssistantMessage(text, stop, Usage(0, 0, 0))
               case Use(id, name, arguments) => after[|log| + k].payload == ToolUse(id, name, arguments)
               case _ => true
  {
    AddAllAt(log, Logged(kept), k);
  }
}
