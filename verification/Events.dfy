/** The session log: an append-only sequence of events with dense sequence numbers. */
module Events {
  import opened Wrappers
  import opened JsonValues
  import Text

  /** Token counts; a total of 0 stands for an absent one. */
  datatype Usage = Usage(prompt: int, completion: int, total: int)

  /** A call id as the log holds it. Only texts are expected, but nothing in the program refuses a number. */
  datatype ToolId = TextId(text: string) | NumberId(number: int)

  /** An id that counts as true and is a text. */
  predicate Proper(id: ToolId) {
    id.TextId? && id.text != ""
  }

  predicate IsFalse(id: ToolId) {
    id == TextId("") || id == NumberId(0)
  }

  /** The id under `str`. */
  function Printed(id: ToolId): (r: ToolId)
    ensures r.TextId? && (r == id <==> id.TextId?) && (r.text == "" <==> id == TextId(""))
  {
    if id.TextId? then id else TextId(Text.IntText(id.number))
  }

  /** The payload fields the modelled code reads, one constructor an event type; an absent output is `None`. */
  datatype Payload =
    | UserMessage(input: Json)
    | AssistantMessage(text: string, stopReason: string, usage: Usage)
    | ToolUse(id: ToolId, name: string, arguments: Json)
    | ToolResult(toolUseId: ToolId, output: Option<Json>, error: Option<string>)
    | Compact(hides: seq<int>, summary: string)
    | Revert(revokes: int)
    | Summary(text: string)
    | ApprovalRequested(toolUseId: ToolId)
    | ApprovalResolved(toolUseId: ToolId, approved: bool)
    | ProviderError(attempt: nat, terminal: bool)
    | RuntimeError(terminal: bool)
    | AgentSpawn(spawnId: string, childSessionId: string)
    | AgentStatus(spawnId: string, status: string)
    | AgentResult(spawnId: string, status: string, usage: Usage)
    | HashRecord(path: string, digest: string)
    | Annotation(kind: string)

  datatype Event = Event(num: int, payload: Payload)

  ghost predicate Dense(log: seq<Event>) {
    forall i {:trigger log[i]} :: 0 <= i < |log| ==> log[i].num == i
  }

  class Log {
    var events: seq<Event>

    ghost predicate Valid()
      reads this
    {
      Dense(events)
    }

    constructor ()
      ensures Valid() && events == []
    {
      events := [];
    }

    method Append(payload: Payload) returns (event: Event)
      requires Valid()
      modifies this
      ensures Valid()
      ensures event == Event(|old(events)|, payload)
      ensures events == old(events) + [event]
    {
      event := Event(|events|, payload);
      events := events + [event];
    }
  }
}
