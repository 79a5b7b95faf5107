/** The tool runner: it answers a call exactly once, whatever the tool does. */
module ToolRunner {
  import opened Wrappers
  import opened JsonValues
  import opened Events
  import opened LogHistory
  import opened AgentHistory
  import opened SessionState
  import CanonicalJson
  import opened DelegationGrowth
  import Delegation

  datatype ToolKind = HandlerTool | SpawnAgentTool

  /** What a handler may log itself: anything but calls, results, compacts, reverts and summaries. */
  type OwnNote = p: Payload | Plain(p) witness RuntimeError(false)

  /** What the outside world gives: the handler's notes, its output or exception, and fresh ids for a spawn. */
  datatype ToolOutcome = ToolOutcome(
    notes: seq<OwnNote>,
    output: Option<string>,
    errorClass: string,
    message: string,
    spawnId: string,
    childId: string)

  /** The run of a call: arguments that count as false reach the handler as an empty dictionary. */
  function RunOf(call: Payload): ToolRun
    requires call.ToolUse?
  {
    ToolRun(call.id, call.name, OrEmpty(call.arguments))
  }

  function Field(args: Json, key: string): Option<Json> {
    if args.Dict? && exists e :: e in args.entries && e.key == key then
      FirstWith(args.entries, key)
    else None
  }

  function FirstWith(entries: seq<Entry>, key: string): Option<Json> {
    if entries == [] then None
    else if entries[0].key == key then Some(entries[0].value)
    else FirstWith(entries[1..], key)
  }

  /** The task of a spawn request: any value that counts as true. */
  function TaskOf(args: Json): Option<Json> {
    var task := Field(args, "task");
    if task.Some? && !Falsy(task.value) then task else None
  }

  /** The receipt of a spawn, as compact JSON. */
  function Receipt(spawnId: string, childId: string): string {
    "{\"spawn_id\":" + CanonicalJson.StringText(spawnId)
    + ",\"child_session_id\":" + CanonicalJson.StringText(childId)
    + ",\"status\":\"spawned\"}"
  }

  function SpawnReceipt(call: Payload, o: ToolOutcome): Payload
    requires call.ToolUse?
  {
    ToolResult(call.id, Some(Str(Receipt(o.spawnId, o.childId))), None)
  }

  function ErrorResult(id: ToolId, errorClass: string, message: string): Payload {
    ToolResult(id, Some(Null), Some(errorClass + ": " + message))
  }

  function HandlerResult(id: ToolId, o: ToolOutcome): Payload {
    match o.output
    case Some(text) => ToolResult(id, Some(Str(text)), None)
    case None => ErrorResult(id, o.errorClass, o.message)
  }

  /** Arguments that are no dictionary have no fields to look up; others lack a task. */
  function SpawnRefusal(call: Payload, o: ToolOutcome): Payload
    requires call.ToolUse?
  {
    if !OrEmpty(call.arguments).Dict? then ErrorResult(call.id, "AttributeError", o.message)
    else ErrorResult(call.id, "ValueError", "missing required argument: task")
  }

  /** What one run appends to the log. */
  function Appends(registry: map<string, ToolKind>, call: Payload, o: ToolOutcome): (r: seq<Payload>)
    requires call.ToolUse?
    ensures r != [] && r[|r| - 1].ToolResult? && r[|r| - 1].toolUseId == call.id
    ensures forall i :: 0 <= i < |r| - 1 ==> Plain(r[i])
  {
    if call.name !in registry then [ErrorResult(call.id, "KeyError", "tool not registered: " + call.name)]
    else
      match registry[call.name]
      case HandlerTool => o.notes + [HandlerResult(call.id, o)]
      case SpawnAgentTool =>
        (match TaskOf(call.arguments)
         case None => [SpawnRefusal(call, o)]
         case Some(_) =>
           [Payload.AgentSpawn(o.spawnId, o.childId), SpawnReceipt(call, o)])
  }

  /** The child a run stores, when it spawns one. */
  function SpawnedChild(registry: map<string, ToolKind>, parent: Delegation.Header, call: Payload, o: ToolOutcome)
    : Option<Delegation.Record>
    requires call.ToolUse?
  {
    if call.name in registry && registry[call.name] == SpawnAgentTool && TaskOf(call.arguments).Some? then
      Some(Delegation.Record(
        ChildHeader(parent, o.spawnId, o.childId),
        [Event(0, UserMessage(TaskOf(call.arguments).value))]))
    else None
  }

  function Store(children: map<string, Delegation.Record>, id: string, child: Option<Delegation.Record>)
    : map<string, Delegation.Record>
  {
    if child.Some? then children[id := child.value] else children
  }

  class Runner {
    const registry: map<string, ToolKind>
    var childSessions: map<string, Delegation.Record>

    constructor (registry: map<string, ToolKind>)
      ensures this.registry == registry && childSessions == map[]
    {
      this.registry := registry;
      childSessions := map[];
    }

    method Run(call: Payload, session: Session, o: ToolOutcome)
      requires call.ToolUse? && session.log.Valid()
      modifies this, session, session.log
      ensures session.log.Valid()
      ensures session.log.events == AddAll(old(session.log.events), Appends(registry, call, o))
      ensures session.runs == old(session.runs)
              + (if call.name in registry then [RunOf(call)] else [])
      ensures childSessions == Store(old(childSessions), o.childId, SpawnedChild(registry, session.header, call, o))
    {
      ghost var before := session.log.events;
      var id := call.id;
      if call.name !in registry {
        var _ := session.log.Append(ErrorResult(id, "KeyError", "tool not registered: " + call.name));
        assert AddAll(before, []) == before;
        return;
      }
      session.runs := session.runs + [RunOf(call)];
      if registry[call.name] == SpawnAgentTool {
        RunSpawnAgent(call, session, o);
      } else {
        var i := 0;
        while i < |o.notes|
          invariant 0 <= i <= |o.notes| && session.log.Valid()
          invariant session.log.events == AddAll(before, o.notes[..i])
          modifies session.log
        {
          assert o.notes[..i + 1][..i] == o.notes[..i];
          var _ := session.log.Append(o.notes[i]);
          i := i + 1;
        }
        assert o.notes[..i] == o.notes;
        var result := HandlerResult(id, o);
        assert (o.notes + [result])[..|o.notes|] == o.notes;
        var _ := session.log.Append(result);
      }
    }

    method RunSpawnAgent(call: Payload, session: Session, o: ToolOutcome)
      requires call.ToolUse? && session.log.Valid()
      requires call.name in registry && registry[call.name] == SpawnAgentTool
      modifies `childSessions, session.log
      ensures session.log.Valid()
      ensures session.log.events == AddAll(old(session.log.events), Appends(registry, call, o))
      ensures childSessions == Store(old(childSessions), o.childId, SpawnedChild(registry, session.header, call, o))
    {
      ghost var before := session.log.events;
      assert AddAll(before, []) == before;
      var task := TaskOf(call.arguments);
      if task.None? {
        var _ := session.log.Append(SpawnRefusal(call, o));
        return;
      }
      var parent := session.header;
      var chain := parent.chain + [Delegation.Link(parent.id, parent.spawnId)];
      var root := if parent.root.Some? then parent.root else Some(parent.id);
      var header := Delegation.Header(o.childId, Some(parent.id), root, Some(o.spawnId), chain);
      var childLog := new Log();
      var _ := childLog.Append(UserMessage(task.value));
      assert childLog.events == [Event(0, UserMessage(task.value))];
      childSessions := childSessions[o.childId := Delegation.Record(header, childLog.events)];
      var spawn := Payload.AgentSpawn(o.spawnId, o.childId);
      var result := SpawnReceipt(call, o);
      var _ := session.log.Append(spawn);
      var _ := session.log.Append(result);
      assert [spawn, result][..1] == [spawn] && [spawn][..0] == [];
    }
  }

  /** The sessions after a run that spawns. */
  function AfterSpawn(
    registry: map<string, ToolKind>, m: Delegation.Sessions, parent: string, call: Payload, o: ToolOutcome)
    : Delegation.Sessions
    requires parent in m && call.ToolUse?
  {
    Store(
      m[parent := m[parent].(log := AddAll(m[parent].log, Appends(registry, call, o)))],
      o.childId,
      SpawnedChild(registry, m[parent].header, call, o))
  }

  /** A run that spawns is one step of a growing forest, so with fresh ids the forest stays grown. */
  lemma SpawningGrows(
    registry: map<string, ToolKind>, m: Delegation.Sessions, parent: string, call: Payload, o: ToolOutcome)
    requires parent in m && call.ToolUse?
    requires SpawnedChild(registry, m[parent].header, call, o).Some?
    ensures TaskOf(call.arguments).Some?
    ensures AfterSpawn(registry, m, parent, call, o)
         == Grow(m, SpawnAgent(parent, o.spawnId, o.childId, TaskOf(call.arguments).value, SpawnReceipt(call, o)))
    ensures Grown(m) && o.childId !in m && (forall k :: k in m ==> FreshIn(m[k], o.spawnId)) ==>
              Grown(AfterSpawn(registry, m, parent, call, o))
  {
    hide Receipt, FreshIn;
    var spawn, result := Payload.AgentSpawn(o.spawnId, o.childId), SpawnReceipt(call, o);
    var g := SpawnAgent(parent, o.spawnId, o.childId, TaskOf(call.arguments).value, result);
    assert Appends(registry, call, o) == [spawn, result];
    assert [spawn, result][..1] == [spawn] && [spawn][..0] == [];
    assert AddAll(m[parent].log, []) == m[parent].log;
    assert AddAll(m[parent].log, [spawn]) == Add(m[parent].log, spawn);
    if Grown(m) && o.childId !in m && (forall k :: k in m ==> FreshIn(m[k], o.spawnId)) {
      GrownNext(m, g);
    }
  }

  /** Running an open call is possible in the history, and answers exactly that call. */
  lemma RunReached(w0: World, w: World, registry: map<string, ToolKind>, call: Payload, o: ToolOutcome)
    requires Reached(w0, w) && Once(w) && call.ToolUse? && Called(w.log, call.id) && !Answered(w.log, call.id)
    ensures var to := World(
                AddAll(w.log, Appends(registry, call, o)),
                w.runs + if call.name in registry then [RunOf(call)] else []);
            Reached(w0, to) && OneAnswer(w.log, to.log, call.id)
  {
    var ps := Appends(registry, call, o);
    var notes, result := ps[..|ps| - 1], ps[|ps| - 1];
    NotesReached(w0, w, notes);
    var mid := w.(log := AddAll(w.log, notes));
    assert Called(mid.log, call.id) && !Answered(mid.log, call.id) by {
      var i :| IsUse(w.log, i, call.id);
      assert IsUse(mid.log, i, call.id);
    }
    OneAnswerAfter(w.log, mid.log, result);
    if call.name in registry {
      ReachedNext(w0, mid, Perform(RunOf(call), result.output, result.error));
    } else {
      ReachedNext(w0, mid, LogAct(Answer(call.id, result.output, result.error)));
      assert w.runs + [] == w.runs;
    }
  }

  /** The log grew, no call was added, and exactly one answer was, to this call. */
  ghost predicate OneAnswer(a: seq<Event>, b: seq<Event>, id: ToolId) {
    && a <= b && Answered(b, id)
    && (forall i, x :: IsUse(b, i, x) <==> IsUse(a, i, x))
    && (forall j, x :: IsResult(a, j, x) ==> IsResult(b, j, x))
    && (forall j, x :: IsResult(b, j, x) && !IsResult(a, j, x) ==> x == id)
  }

  lemma OneAnswerAfter(a: seq<Event>, mid: seq<Event>, result: Payload)
    requires SameTools(a, mid) && result.ToolResult?
    ensures OneAnswer(a, Add(mid, result), result.toolUseId)
  {
    var b := Add(mid, result);
    assert IsResult(b, |mid|, result.toolUseId);
    assert forall i, x :: IsUse(b, i, x) <==> IsUse(mid, i, x);
    assert forall j, x :: IsResult(mid, j, x) ==> IsResult(b, j, x);
    assert forall j, x :: IsResult(b, j, x) && j < |mid| ==> IsResult(mid, j, x);
  }
}
