/** What a run logs and hands to its tool, case by case. */
module ToolRunLaws {
  import opened Wrappers
  import opened JsonValues
  import opened Events
  import opened AgentHistory
  import opened ToolRunner
  import CanonicalJson
  import Delegation

  /** A handler gets the call's arguments, and an empty dictionary in place of values that count as false. */
  lemma HandlerArguments(call: Payload)
    requires call.ToolUse?
    ensures call.arguments in {Null, Bool(false), Int(0), Str(""), List([])} ==>
              RunOf(call) == ToolRun(call.id, call.name, Dict([]))
    ensures call.arguments !in {Null, Bool(false), Int(0), Str(""), List([])} ==>
              RunOf(call) == ToolRun(call.id, call.name, call.arguments)
  {
  }

  /** An unknown tool is answered with an error, a handler's output is its result, an exception its error text. */
  lemma HandlerAnswers(registry: map<string, ToolKind>, call: Payload, o: ToolOutcome)
    requires call.ToolUse?
    ensures call.name !in registry ==>
              Appends(registry, call, o)
              == [ToolResult(call.id, Some(Null), Some("KeyError: tool not registered: " + call.name))]
    ensures call.name in registry && registry[call.name] == HandlerTool ==>
              forall text :: o.output == Some(text) ==>
                Appends(registry, call, o) == o.notes + [ToolResult(call.id, Some(Str(text)), None)]
    ensures call.name in registry && registry[call.name] == HandlerTool && o.output == None ==>
              Appends(registry, call, o)
              == o.notes + [ToolResult(call.id, Some(Null), Some(o.errorClass + ": " + o.message))]
  {
    assert "KeyError" + ": " + ("tool not registered: " + call.name) == "KeyError: tool not registered: " + call.name;
  }

  lemma {:induction false} FirstTask(entries: seq<Entry>, i: nat)
    requires i < |entries| && entries[i].key == "task" && forall j :: 0 <= j < i ==> entries[j].key != "task"
    ensures FirstWith(entries, "task") == Some(entries[i].value)
  {
    if i > 0 { FirstTask(entries[1..], i - 1); }
  }

  /** With a task that counts as true, a spawn is logged with its receipt, and the child starts with that task. */
  lemma TaskSpawns(
    registry: map<string, ToolKind>, parent: Delegation.Header, call: Payload, o: ToolOutcome,
    entries: seq<Entry>, i: nat)
    requires call.ToolUse? && call.name in registry && registry[call.name] == SpawnAgentTool
    requires call.arguments == Dict(entries) && i < |entries| && entries[i].key == "task"
    requires forall j :: 0 <= j < i ==> entries[j].key != "task"
    requires entries[i].value !in {Null, Bool(false), Int(0), Str(""), List([]), Dict([])}
    ensures Appends(registry, call, o)
         == [AgentSpawn(o.spawnId, o.childId),
             ToolResult(call.id,
                        Some(Str("{\"spawn_id\":" + CanonicalJson.StringText(o.spawnId) + ",\"child_session_id\":"
                                 + CanonicalJson.StringText(o.childId) + ",\"status\":\"spawned\"}")),
                        None)]
    ensures var child := SpawnedChild(registry, parent, call, o);
            && child.Some? && child.value.log == [Event(0, UserMessage(entries[i].value))]
            && child.value.header.id == o.childId && child.value.header.parent == Some(parent.id)
            && child.value.header.spawnId == Some(o.spawnId)
  {
    FirstTask(entries, i);
    assert entries[i] in entries;
    assert TaskOf(call.arguments) == Some(entries[i].value);
  }

  /** Without one, the call is only answered with an error. */
  lemma NoTaskIsRefused(registry: map<string, ToolKind>, parent: Delegation.Header, call: Payload, o: ToolOutcome)
    requires call.ToolUse? && call.name in registry && registry[call.name] == SpawnAgentTool
    ensures call.arguments.Dict? && (forall e :: e in call.arguments.entries && e.key == "task" ==>
              e.value in {Null, Bool(false), Int(0), Str(""), List([]), Dict([])}) ==>
              && SpawnedChild(registry, parent, call, o) == None
              && Appends(registry, call, o)
                 == [ToolResult(call.id, Some(Null), Some("ValueError: missing required argument: task"))]
    ensures call.arguments in {Null, Bool(false), Int(0), Str(""), List([])} ==>
              Appends(registry, call, o)
              == [ToolResult(call.id, Some(Null), Some("ValueError: missing required argument: task"))]
    ensures !call.arguments.Dict? && call.arguments !in {Null, Bool(false), Int(0), Str(""), List([])} ==>
              Appends(registry, call, o) == [ToolResult(call.id, Some(Null), Some("AttributeError: " + o.message))]
  {
    if call.arguments.Dict? {
      FoundAmong(call.arguments.entries);
    }
    assert "ValueError" + ": " + "missing required argument: task" == "ValueError: missing required argument: task";
    assert "AttributeError" + ": " + o.message == "AttributeError: " + o.message;
  }

  lemma {:induction false} FoundAmong(entries: seq<Entry>)
    ensures var found := FirstWith(entries, "task");
            found.Some? ==> exists e :: e in entries && e.key == "task" && e.value == found.value
  {
    if entries != [] && entries[0].key != "task" {
      FoundAmong(entries[1..]);
      assert entries == [entries[0]] + entries[1..];
    } else if entries != [] {
      assert entries[0] in entries;
    }
  }
}
