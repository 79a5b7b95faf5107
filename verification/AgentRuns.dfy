/**
  Whole histories of a session: runs, approvals, denials and outside events in any order, each run with a
  new loop object. What the code gets wrong is a reused loop object, and ids that are empty or no texts.
  */
module AgentRuns {
  import opened Wrappers
  import opened JsonValues
  import opened Events
  import opened LogHistory
  import opened AgentHistory
  import opened SessionState
  import opened Hooks
  import opened ToolRunner
  import opened RetryPolicies
  import opened Approvals
  import opened LoopSpecs
  import opened AgentLoops
  import opened Progress
  import ProjectionLaws

  datatype Operation =
    | StartRun
    | ApproveCall(id: ToolId)
    | DenyCall(id: ToolId, reason: string)
    | Outside(steps: seq<Step>)

  predicate Harmless(ops: seq<Operation>) {
    forall op, s :: op in ops && op.Outside? && s in op.steps ==> QuietStep(s)
  }

  /** Nothing happens twice in any interleaving, and its log is one of the reachable logs. */
  method Drive(session: Session, runner: Runner?, policy: RetryPolicy, maxTurns: int, script: Script,
               ops: seq<Operation>)
    requires session.Valid() && session.World() == NEW_WORLD
    requires policy.Valid() && ScriptOk(script) && Harmless(ops) && FreshIds(script, 0, [])
    modifies session, session.log, runner
    ensures Reached(NEW_WORLD, session.World()) && Reachable(session.log.events)
    ensures forall i, j, id :: IsResult(session.log.events, i, id) && IsResult(session.log.events, j, id) ==> i == j
    ensures forall a, b :: 0 <= a < b < |session.runs| ==> session.runs[a].id != session.runs[b].id
    ensures forall a :: 0 <= a < |session.runs| ==>
              Called(session.log.events, session.runs[a].id) && Answered(session.log.events, session.runs[a].id)
  {
    ReachedRefl(NEW_WORLD);
    var at := Occasions(0, 0, 0, 0);
    var k := 0;
    while k < |ops|
      invariant 0 <= k <= |ops|
      invariant session.Valid() && Reached(NEW_WORLD, session.World())
      invariant FreshIds(script, at.provider, session.log.events)
    {
      ghost var w := session.World();
      assert ops[k] in ops;
      at := Operate(session, runner, policy, maxTurns, script, ops[k], at);
      ReachedTransitive(NEW_WORLD, w, session.World());
      k := k + 1;
    }
    HistoryLogIsReachable(session.World());
    NothingTwice(session.World());
  }

  method Operate(session: Session, runner: Runner?, policy: RetryPolicy, maxTurns: int, script: Script, op: Operation,
                 at: Occasions) returns (next: Occasions)
    requires session.Valid() && policy.Valid() && ScriptOk(script) && Harmless([op])
    requires FreshIds(script, at.provider, session.log.events)
    modifies session, session.log, runner
    ensures session.Valid() && Reached(old(session.World()), session.World())
    ensures FreshIds(script, next.provider, session.log.events)
  {
    hide AddAll, Appends;
    ghost var before := session.log.events;
    next := at;
    match op {
      case StartRun =>
        var loop := new AgentLoop(session, runner, policy, maxTurns, script, at);
        NewLoopIsSynced(session.log.events);
        var _ := loop.Run();
        next := loop.Now();
      case ApproveCall(id) =>
        var r := Approve(session, runner, id, script.tools(at.tools));
        next := at.(tools := at.tools + 1);
        FreshKept(script, at.provider, at.provider, before, session.log.events);
      case DenyCall(id, reason) =>
        var r := Deny(session, id, reason);
        NoneAdded(before);
        FreshKept(script, at.provider, at.provider, before, session.log.events);
      case Outside(steps) =>
        assert op in [op];
        forall s | s in steps ensures QuietStep(s) && WellConfigured(s) {
          assert QuietStep(s);
        }
        ApplyEffects(steps, session);
        FreshKept(script, at.provider, at.provider, before, session.log.events);
    }
  }

  type Resolution = op: Operation | op.ApproveCall? || op.DenyCall? witness ApproveCall(TextId(""))

  function ResolvedIds(ops: seq<Resolution>): set<ToolId> {
    set op | op in ops :: op.id
  }

  /** Approving or denying open calls, in any order and each once, answers exactly those. */
  method Resolve(session: Session, runner: Runner, ops: seq<Resolution>, outcomes: nat -> ToolOutcome)
    requires session.Valid()
    requires forall j, k :: 0 <= j < k < |ops| ==> ops[j].id != ops[k].id
    requires forall op :: op in ops ==> Called(session.log.events, op.id) && !Answered(session.log.events, op.id)
    modifies session, session.log, runner
    ensures session.Valid() && Reached(old(session.World()), session.World())
    ensures Answers(old(session.log.events), session.log.events, ResolvedIds(ops))
  {
    hide AddAll, Appends, Answers, OneAnswer, Reached, Once, Inv;
    ghost var w0 := session.World();
    ReachedRefl(w0);
    NoneResolved(w0.log);
    var k := 0;
    while k < |ops|
      invariant 0 <= k <= |ops| && session.Valid() && Reached(w0, session.World())
      invariant Answers(w0.log, session.log.events, ResolvedIds(ops[..k]))
    {
      ghost var w := session.World();
      var op := ops[k];
      assert op in ops && op.id !in ResolvedIds(ops[..k]);
      assert ResolvedIds(ops[..k + 1]) == ResolvedIds(ops[..k]) + {op.id};
      AnswersOthers(w0.log, w.log, ResolvedIds(ops[..k]), op.id);
      if op.ApproveCall? {
        var _ := Approve(session, runner, op.id, outcomes(k));
      } else {
        var _ := Deny(session, op.id, op.reason);
      }
      ReachedTransitive(w0, w, session.World());
      OneOfMany(w.log, session.log.events, op.id);
      AnswersThen(w0.log, w.log, session.log.events, ResolvedIds(ops[..k]), {op.id});
      k := k + 1;
    }
    assert ops[..k] == ops;
  }

  lemma NoneResolved(log: seq<Event>)
    ensures Answers(log, log, ResolvedIds([]))
  {
  }

  lemma OneOfMany(a: seq<Event>, b: seq<Event>, id: ToolId)
    requires OneAnswer(a, b, id)
    ensures Answers(a, b, {id})
  {
  }

  lemma NewLoopIsSynced(log: seq<Event>)
    ensures LatestResults(log[..0]) == map[] && LatestResults(log[..0]).Keys == {}
  {
  }

  /** The scan from an index is the full scan exactly when no call before the index is open. */
  lemma ScanIsFullExactlyWhenDrained(log: seq<Event>, from: nat)
    requires from <= |log|
    ensures OpenCalls(log[from..], LatestResults(log).Keys) == FullScan(log)
       <==> forall e :: e in log[..from] && e.payload.ToolUse? ==> e.payload.id in LatestResults(log)
  {
    var done := LatestResults(log).Keys;
    assert log == log[..from] + log[from..];
    OpenCallsConcat(log[..from], log[from..], done);
    NoOpenCalls(log[..from], done);
  }

  lemma {:induction false} QuietTail(a: seq<Event>, b: seq<Event>, done: set<ToolId>)
    requires SameTools(a, b)
    ensures LatestResults(b) == LatestResults(a) && OpenCalls(b[|a|..], done) == []
    decreases |b|
  {
    if |a| < |b| {
      var n := |b| - 1;
      assert forall i, id :: IsUse(b[..n], i, id) <==> IsUse(b, i, id) && i < n;
      assert forall i, id :: IsResult(b[..n], i, id) <==> IsResult(b, i, id) && i < n;
      QuietTail(a, b[..n], done);
      assert b[|a|..][..n - |a|] == b[..n][|a|..];
      if b[n].payload.ToolUse? { assert IsUse(b, n, b[n].payload.id); }
      if b[n].payload.ToolResult? { assert IsResult(b, n, b[n].payload.toolUseId); }
    } else {
      assert a == b && b[|a|..] == [];
    }
  }

  /** Events that are neither calls nor results change no scan. */
  lemma SameScan(a: seq<Event>, b: seq<Event>)
    requires SameTools(a, b)
    ensures FullScan(b) == FullScan(a) && OpenCalls(b[|a|..], LatestResults(b).Keys) == []
  {
    hide OpenCalls, LatestResults;
    var done := LatestResults(b).Keys;
    QuietTail(a, b, done);
    assert b == a + b[|a|..];
    OpenCallsConcat(a, b[|a|..], done);
  }

  lemma {:induction false} RequestsIffHeld(pending: seq<Payload>, decisions: seq<seq<Decision>>)
    requires |pending| == |decisions| && forall p :: p in pending ==> p.ToolUse?
    ensures Requests(pending, decisions) != [] <==> exists j :: 0 <= j < |pending| && Held(decisions[j])
  {
    hide Held, Requests;
    if pending == [] {
      NoRequests(decisions);
    } else {
      var n := |pending| - 1;
      RequestsNext(pending, decisions);
      RequestsIffHeld(pending[..n], decisions[..n]);
      assert forall j :: 0 <= j < n ==> decisions[..n][j] == decisions[j];
    }
  }

  lemma NoRequests(decisions: seq<seq<Decision>>)
    requires decisions == []
    ensures Requests([], decisions) == []
  {
  }

  /** Where a batch of no calls ran, nothing was answered. */
  lemma EmptyBatch(registry: map<string, ToolKind>, from: World, to: World, failed: bool)
    requires Ran(registry, [], [], from, to, failed)
    ensures SameTools(from.log, to.log)
  {
  }

  /** Dispatching twice with one loop object: after a pause the second dispatch passes over the whole batch. */
  method DispatchTwice(loop: AgentLoop) returns (first: seq<Payload>, paused: bool, second: seq<Payload>)
    requires loop.Valid() && loop.runner != null && loop.Drained()
    modifies loop, loop.session, loop.session.log, loop.runner
    ensures loop.Valid() && first == FullScan(old(loop.session.log.events))
    ensures paused ==> first != [] && second == [] && FullScan(loop.session.log.events) == first
    ensures var decisions := DecisionsFrom(loop.script, old(loop.hookCalls), |first|);
            paused <==> !AnyFatal(loop.script, old(loop.hookCalls), |first|)
                        && exists j :: 0 <= j < |first| && Held(decisions[j])
  {
    hide FullScan, OpenCalls, LatestResults, Requests, Held, Ran, Reached, FreshIds, ScriptOk;
    ghost var before, at := loop.session.log.events, loop.hookCalls;
    var failed;
    first, paused, failed := loop.DispatchPendingTools();
    second := [];
    if !AnyFatal(loop.script, at, |first|) { RequestsIffHeld(first, DecisionsFrom(loop.script, at, |first|)); }
    if paused {
      ghost var mid := loop.session.World();
      SameScan(before, mid.log);
      at := loop.hookCalls;
      var again;
      second, again, failed := loop.DispatchPendingTools();
      assert second == [];
      NoRequests(DecisionsFrom(loop.script, at, 0));
      EmptyBatch(loop.runner.registry, mid, loop.session.World(), failed);
      SameScan(mid.log, loop.session.log.events);
    }
  }

  /** A log of one call is a possible history, and its scan finds the call. */
  lemma FirstCall(call: Payload)
    requires call.ToolUse? && Proper(call.id)
    ensures Once(World(Add([], call), [])) && FullScan(Add([], call)) == [call]
  {
    ReachedRefl(NEW_WORLD);
    assert call == ToolUse(call.id, call.name, call.arguments);
    assert !Called([], call.id);
    ReachedNext(NEW_WORLD, NEW_WORLD, LogAct(Call(call.id, call.name, call.arguments)));
    ReachedKeepsOnce(NEW_WORLD, World(Add([], call), []));
    NothingScanned({});
    ScanNext([], call, {});
  }

  lemma HoldsOnly(hold: Handler)
    requires hold == Handler([], false, false, Some(Decision(false, true, None, None)))
    ensures Quiet([hold]) && !Fatal([hold]) && Held(Decisions([hold]))
  {
    assert [hold][..0] == [];
    assert Decisions([hold]) == [hold.decision.value];
    assert hold.decision.value in Decisions([hold]);
  }

  /** A script in which hooks hold every call, and the provider never answers. */
  function HoldingScript(): Script {
    Script(
      (n: nat) => [Handler([], false, false, Some(Decision(false, true, None, None)))],
      (n: nat) => Error(CallError(None, false)),
      (n: nat) => ToolOutcome([], None, "", "", "", ""),
      (n: nat) => false)
  }

  lemma HoldingScriptHolds(log: seq<Event>)
    ensures var s := HoldingScript();
            && ScriptOk(s) && FreshIds(s, 0, log)
            && forall n: nat :: !Fatal(s.hooks(n)) && Held(Decisions(s.hooks(n)))
  {
    HoldsOnly(HoldingScript().hooks(0)[0]);
  }

  /** A new loop over a log of one call that hooks will hold. */
  method HeldCallLoop(call: Payload) returns (loop: AgentLoop)
    requires call.ToolUse? && Proper(call.id)
    ensures fresh(loop) && fresh(loop.session) && fresh(loop.session.log) && loop.runner != null && fresh(loop.runner)
    ensures loop.Valid() && loop.Drained() && loop.session.log.events == Add([], call)
    ensures loop.script == HoldingScript() && loop.hookCalls == 0
  {
    hide Once, ScriptOk, FreshIds, HoldingScript, FullScan;
    var session := new Session(Delegation.Header("", None, None, None, []));
    var _ := session.log.Append(call);
    FirstCall(call);
    HoldingScriptHolds(session.log.events);
    var runner := new Runner(map[]);
    loop := new AgentLoop(session, runner, DEFAULT_POLICY, 1, HoldingScript(), Occasions(0, 0, 0, 0));
    NewLoopIsSynced(session.log.events);
  }

  /** One call, held by a hook: the loop that paused finds nothing when it is reused, and a new loop finds the call. */
  method ReusedLoopMissesHeldCall(call: Payload)
    returns (first: seq<Payload>, paused: bool, second: seq<Payload>, anew: seq<Payload>)
    requires call.ToolUse? && Proper(call.id)
    ensures first == [call] && paused && second == [] && anew == [call]
  {
    hide FullScan, Held, Fatal, HoldingScript, Once, ScriptOk, FreshIds, LatestResults, OpenCalls;
    FirstCall(call);
    HoldingScriptHolds([]);
    var loop := HeldCallLoop(call);
    first, paused, second := DispatchTwice(loop);
    assert DecisionsFrom(loop.script, 0, 1)[0] == Decisions(loop.script.hooks(0));
    var other := new AgentLoop(loop.session, loop.runner, loop.policy, 1, loop.script, loop.Now());
    NewLoopIsSynced(loop.session.log.events);
    anew := other.PendingToolUses();
  }

  // ---- A run of two turns ----------------------------------------------------------------------------------

  /** One call in the first reply, a plain answer in the second, and no hooks. */
  function ToolThenAnswer(): Script {
    Script(
      (n: nat) => [],
      (n: nat) =>
        if n == 0 then
          Response([AssistantMessage("", "tool_use", Usage(0, 0, 0)), ToolUse(TextId("a"), "f", EMPTY_DICT)])
        else if n == 1 then Response([AssistantMessage("done", "end_turn", Usage(0, 0, 0))])
        else Error(CallError(None, false)),
      (n: nat) => ToolOutcome([], Some("result"), "", "", "", ""),
      (n: nat) => false)
  }

  lemma ToolThenAnswerGoesOn()
    ensures var s := ToolThenAnswer();
            && ScriptOk(s) && FreshIds(s, 0, []) && Calm(s, Occasions(0, 0, 0, 0))
            && GoesOn(s, DEFAULT_POLICY, 0, 1) && TurnCall(s, DEFAULT_POLICY, 0, 2) == 2
  {
    var s := ToolThenAnswer();
    var first, second := s.provider(0).events, s.provider(1).events;
    assert first[0].AssistantMessage? && first[1].ToolUse? && first[1] in first;
    assert second[0].AssistantMessage? && !HasCalls(second);
    assert Stops(first, "tool_use") && Stops(second, "end_turn");
    assert TurnCall(s, DEFAULT_POLICY, 0, 0) == 0 && TurnCall(s, DEFAULT_POLICY, 0, 1) == 1;
  }

  /** The tool runs, its result goes back to the provider, and the second reply ends the run. */
  method AnswerAfterTool(maxTurns: int) returns (reason: string, calls: nat)
    requires maxTurns >= 2
    ensures reason == "end_turn" && calls == 2
  {
    hide ToolThenAnswer, ScriptOk, FreshIds, Calm, GoesOn, TurnCall, LatestResults, OpenCalls, Once;
    ToolThenAnswerGoesOn();
    var session := new Session(Delegation.Header("", None, None, None, []));
    var runner := new Runner(map["f" := HandlerTool]);
    var loop := new AgentLoop(session, runner, DEFAULT_POLICY, maxTurns, ToolThenAnswer(), Occasions(0, 0, 0, 0));
    NewLoopIsSynced(session.log.events);
    reason := loop.Run();
    calls := loop.providerCalls;
  }

  lemma ScanNext(log: seq<Event>, p: Payload, done: set<ToolId>)
    ensures OpenCalls(Add(log, p), done) == OpenCalls(log, done) + (if p.ToolUse? && p.id !in done then [p] else [])
    ensures LatestResults(Add(log, p)).Keys
         == LatestResults(log).Keys + (if p.ToolResult? && !IsFalse(p.toolUseId) then {Printed(p.toolUseId)} else {})
  {
    assert Add(log, p)[..|log|] == log;
  }

  lemma NothingScanned(done: set<ToolId>)
    ensures OpenCalls([], done) == [] && LatestResults([]).Keys == {}
  {
  }

  /** A batch of two calls of which a hook holds the first: the pause resolved, the second is still open. */
  lemma MixedBatchLeavesCallOpen(first: Payload, second: Payload, hold: Decision, reason: string)
    requires first.ToolUse? && second.ToolUse? && first.id != second.id && Proper(first.id)
    requires hold.holds && !hold.refuses
    ensures var asked := Add(Add([], first), second);
            var paused := Add(asked, ApprovalRequested(first.id));
            && FullScan(asked) == [first, second]
            && Paused([first, second], [[hold], []], World(asked, []), World(paused, []))
            && FullScan(AddAll(paused, Denial(first.id, reason))) == [second]
  {
    hide OpenCalls, LatestResults;
    var asked := Add(Add([], first), second);
    var held, note, result := ApprovalRequested(first.id), Denial(first.id, reason)[0], Denial(first.id, reason)[1];
    var paused := Add(asked, held);
    var after := Add(Add(paused, note), result);
    assert Denial(first.id, reason)[..1] == [note] && [note][..0] == [];
    NoneAdded(paused);
    ScanTwo(first, second, {});
    ScanTwo(first, second, {first.id});
    ScanNext(asked, held, {first.id});
    ScanNext(paused, note, {first.id});
    ScanNext(Add(paused, note), result, {first.id});
    assert LatestResults(after).Keys == {first.id};
    assert OpenCalls(after, {first.id}) == [second];
    OneRequest(first, second, hold);
    NoneAdded(asked);
    SameToolsRefl(asked);
  }

  lemma ScanTwo(first: Payload, second: Payload, done: set<ToolId>)
    requires first.ToolUse? && second.ToolUse? && second.id !in done
    ensures var asked := Add(Add([], first), second);
            && OpenCalls(asked, done) == (if first.id in done then [second] else [first, second])
            && LatestResults(asked).Keys == {}
  {
    NothingScanned(done);
    ScanNext([], first, done);
    ScanNext(Add([], first), second, done);
  }

  lemma OneRequest(first: Payload, second: Payload, hold: Decision)
    requires first.ToolUse? && second.ToolUse? && hold.holds && !hold.refuses
    ensures Requests([first, second], [[hold], []]) == [ApprovalRequested(first.id)]
  {
    assert hold in [hold];
    assert [first, second][..1] == [first] && [[hold], []][..1] == [[hold]] && [first][..0] == [];
    assert Requests([first], [[hold]]) == [] + [ApprovalRequested(first.id)];
  }

  /** A call is found pending exactly when no result is remembered under its id. */
  lemma PendingIff(log: seq<Event>, i: int, id: ToolId)
    requires IsUse(log, i, id)
    ensures log[i].payload in FullScan(log) <==> !Remembered(log, id)
  {
    hide OpenCalls, LatestResults;
    LatestResultsKeys(log);
    OpenCallsMembers(log, LatestResults(log).Keys);
    assert log[i] in log;
  }

  /** An answered call is found pending again, in every later scan, exactly when its id is empty or no text. */
  lemma AnsweredCallRepeatsIff(log: seq<Event>, i: int, id: ToolId)
    requires IsUse(log, i, id) && Answered(log, id)
    ensures log[i].payload in FullScan(log) <==> !Proper(id)
  {
    PendingIff(log, i, id);
    if Proper(id) {
      var j :| IsResult(log, j, id);
    }
  }

  /** An open call with a proper id is passed over exactly when a number with the same digits is answered. */
  lemma OpenCallIsPassedOverIff(log: seq<Event>, i: int, id: ToolId)
    requires IsUse(log, i, id) && Proper(id) && !Answered(log, id)
    ensures log[i].payload !in FullScan(log)
       <==> exists n :: n != 0 && Printed(NumberId(n)) == id && Answered(log, NumberId(n))
  {
    PendingIff(log, i, id);
    if Remembered(log, id) {
      var j, x :| IsResult(log, j, x) && !IsFalse(x) && Printed(x) == id;
      assert x.NumberId? && Answered(log, NumberId(x.number));
    }
    if n :| n != 0 && Printed(NumberId(n)) == id && Answered(log, NumberId(n)) {
      var j :| IsResult(log, j, NumberId(n));
    }
  }

  /** The number 7 is answered, and so the open call with the id "7" is passed over, and the answered one is found. */
  lemma SevenIsMistaken(text: Payload, number: Payload, result: Payload)
    requires text.ToolUse? && text.id == TextId("7") && number.ToolUse? && number.id == NumberId(7)
    requires result.ToolResult? && result.toolUseId == NumberId(7)
    ensures FullScan(Add(Add(Add([], text), number), result)) == [number]
  {
    hide OpenCalls, LatestResults;
    var log := Add(Add(Add([], text), number), result);
    assert Printed(NumberId(7)) == TextId("7");
    var done := {TextId("7")};
    NothingScanned(done);
    ScanNext([], text, done);
    ScanNext(Add([], text), number, done);
    ScanNext(Add(Add([], text), number), result, done);
    assert LatestResults(log).Keys == done;
  }

  /** A call and its answer: a new loop finds the call pending unless its id is proper. */
  method AnsweredCallIsFoundAgain(id: ToolId, name: string, arguments: Json, output: Json)
    returns (pending: seq<Payload>)
    ensures pending == if Proper(id) then [] else [ToolUse(id, name, arguments)]
  {
    hide OpenCalls, LatestResults, FreshIds, ScriptOk;
    var call, result := ToolUse(id, name, arguments), ToolResult(id, Some(output), None);
    var session := new Session(Delegation.Header("", None, None, None, []));
    var _ := session.log.Append(call);
    var _ := session.log.Append(result);
    assert session.log.events == Add(Add([], call), result);
    var loop := new AgentLoop(session, null, DEFAULT_POLICY, 1, HoldingScript(), Occasions(0, 0, 0, 0));
    NewLoopIsSynced(session.log.events);
    pending := loop.PendingToolUses();
    CallAndAnswer(call, result);
  }

  lemma CallAndAnswer(call: Payload, result: Payload)
    requires call.ToolUse? && result.ToolResult? && result.toolUseId == call.id
    ensures FullScan(Add(Add([], call), result)) == if Proper(call.id) then [] else [call]
  {
    hide OpenCalls, LatestResults;
    var log := Add(Add([], call), result);
    var done := LatestResults(log).Keys;
    NothingScanned(done);
    ScanNext([], call, done);
    ScanNext(Add([], call), result, done);
  }

  /** Every result the loop, the runner and a denial write has an error text or an output. */
  lemma WrittenResultsHaveContent(registry: map<string, ToolKind>, call: Payload, ds: seq<Decision>, o: ToolOutcome,
                                  stop: string, reason: string)
    requires call.ToolUse?
    ensures forall p :: p in Outcome(registry, call, ds, o) ==> ProjectionLaws.HasContent(p)
    ensures ProjectionLaws.HasContent(CloseResult(call, stop))
    ensures forall p :: p in Denial(call.id, reason) ==> ProjectionLaws.HasContent(p)
  {
    assert |CloseResult(call, stop).error.value| > 0;
  }
}
