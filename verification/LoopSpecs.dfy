/**
  What the agent loop works on: the script of the outside world, the pending calls of a log, the decisions of
  hooks, and what turns, closings and batches do to a session, as acts of its history.
  */
module LoopSpecs {
  import opened Wrappers
  import opened JsonValues
  import opened Events
  import opened Mutations
  import opened LogHistory
  import opened AgentHistory
  import opened SessionState
  import opened Hooks
  import opened ToolRunner
  import opened RetryPolicies
  import opened Approvals

  /** A provider call: the events of its response, or an error before any event. */
  datatype Reply = Response(events: seq<Payload>) | Error(error: CallError)

  /** Everything outside the loop, by the number of the occasion: hooks, provider, tools, projection errors. */
  datatype Script = Script(
    hooks: nat -> seq<Handler>,
    provider: nat -> Reply,
    tools: nat -> ToolOutcome,
    mismatch: nat -> bool)

  /** How many occasions of each kind have passed. */
  datatype Occasions = Occasions(hooks: nat, provider: nat, tools: nat, turns: nat)

  /** Responses consist of assistant messages, calls and annotations. */
  predicate IngestedPayload(p: Payload) {
    p.AssistantMessage? || p.ToolUse? || p.Annotation?
  }

  ghost predicate ScriptOk(s: Script) {
    && (forall n: nat :: Quiet(s.hooks(n)))
    && (forall n: nat, p :: s.provider(n).Response? && p in s.provider(n).events ==> IngestedPayload(p))
  }

  ghost predicate NewId(s: Script, n: nat, i: int, id: ToolId) {
    && s.provider(n).Response? && 0 <= i < |s.provider(n).events|
    && s.provider(n).events[i].ToolUse? && s.provider(n).events[i].id == id
  }

  /** From the `from`-th provider call on, call ids are proper, not used before, and not repeated. */
  ghost predicate FreshIds(s: Script, from: nat, log: seq<Event>) {
    && (forall n: nat, i, id :: n >= from && NewId(s, n, i, id) ==> Proper(id) && !Called(log, id))
    && (forall m: nat, n: nat, i, j, id ::
          m >= from && n >= from && NewId(s, m, i, id) && NewId(s, n, j, id) ==> m == n && i == j)
  }

  // ---- The scan ------------------------------------------------------------------------------------------

  /** The latest result of each id that counts as true, under the printed id. */
  function LatestResults(log: seq<Event>): map<ToolId, Event> {
    if log == [] then map[]
    else
      var e := log[|log| - 1];
      var m := LatestResults(log[..|log| - 1]);
      if e.payload.ToolResult? && !IsFalse(e.payload.toolUseId) then m[Printed(e.payload.toolUseId) := e] else m
  }

  /** The calls among these events whose id is not in `done`, in order. */
  function OpenCalls(events: seq<Event>, done: set<ToolId>): (r: seq<Payload>)
    ensures forall p :: p in r ==> p.ToolUse?
  {
    if events == [] then []
    else
      var p := events[|events| - 1].payload;
      OpenCalls(events[..|events| - 1], done) + (if p.ToolUse? && p.id !in done then [p] else [])
  }

  /** Pending calls by a full scan of the log. */
  function FullScan(log: seq<Event>): seq<Payload> {
    OpenCalls(log, LatestResults(log).Keys)
  }

  ghost predicate AllAnswered(log: seq<Event>) {
    forall i, id :: IsUse(log, i, id) ==> Answered(log, id)
  }

  /** Some result in the log is remembered under this id. */
  ghost predicate Remembered(log: seq<Event>, id: ToolId) {
    exists j, x :: IsResult(log, j, x) && !IsFalse(x) && Printed(x) == id
  }

  lemma {:induction false} LatestResultsKeys(log: seq<Event>)
    ensures forall id :: id in LatestResults(log) <==> Remembered(log, id)
    ensures forall id :: id in LatestResults(log) ==>
              LatestResults(log)[id].payload.ToolResult? && Printed(LatestResults(log)[id].payload.toolUseId) == id
              && exists j :: IsResult(log, j, LatestResults(log)[id].payload.toolUseId)
  {
    if log != [] {
      var init, e := log[..|log| - 1], log[|log| - 1];
      LatestResultsKeys(init);
      if e.payload.ToolResult? { assert IsResult(log, |log| - 1, e.payload.toolUseId); }
      assert forall j, id :: IsResult(init, j, id) ==> IsResult(log, j, id);
      assert forall j, id :: IsResult(log, j, id) && j < |log| - 1 ==> IsResult(init, j, id);
    }
  }

  /** Where ids are proper, an id is remembered exactly when it is answered. */
  lemma ProperKeys(w: World)
    requires Once(w)
    ensures forall id :: id in LatestResults(w.log) <==> Answered(w.log, id)
    ensures forall id :: id in LatestResults(w.log) ==>
              LatestResults(w.log)[id].payload.ToolResult? && LatestResults(w.log)[id].payload.toolUseId == id
  {
    hide LatestResults;
    LatestResultsKeys(w.log);
    forall j, id | IsResult(w.log, j, id) ensures Proper(id) {
      var i :| i < j && IsUse(w.log, i, id);
    }
  }

  lemma {:induction false} OpenCallsConcat(a: seq<Event>, b: seq<Event>, done: set<ToolId>)
    ensures OpenCalls(a + b, done) == OpenCalls(a, done) + OpenCalls(b, done)
  {
    if b == [] {
      assert a + b == a;
    } else {
      assert (a + b)[..|a + b| - 1] == a + b[..|b| - 1];
      OpenCallsConcat(a, b[..|b| - 1], done);
    }
  }

  lemma {:induction false} NoOpenCalls(events: seq<Event>, done: set<ToolId>)
    ensures OpenCalls(events, done) == [] <==> forall e :: e in events && e.payload.ToolUse? ==> e.payload.id in done
  {
    if events != [] {
      var init, e := events[..|events| - 1], events[|events| - 1];
      NoOpenCalls(init, done);
      assert events == init + [e];
    }
  }

  lemma {:induction false} OpenCallsMembers(events: seq<Event>, done: set<ToolId>)
    ensures forall p :: p in OpenCalls(events, done) <==>
              p.ToolUse? && p.id !in done && exists e :: e in events && e.payload == p
  {
    if events != [] {
      var init := events[..|events| - 1];
      OpenCallsMembers(init, done);
      assert events == init + [events[|events| - 1]];
    }
  }

  /** The full scan finds exactly the open calls, each once. */
  lemma FullScanIsOpenCalls(w: World)
    requires Once(w)
    ensures forall p :: p in FullScan(w.log) ==> p.ToolUse? && Called(w.log, p.id) && !Answered(w.log, p.id)
    ensures forall i, id :: IsUse(w.log, i, id) && !Answered(w.log, id) ==> w.log[i].payload in FullScan(w.log)
    ensures forall j, k :: 0 <= j < k < |FullScan(w.log)| ==> FullScan(w.log)[j].id != FullScan(w.log)[k].id
  {
    hide LatestResults, OpenCalls;
    var log, done := w.log, LatestResults(w.log).Keys;
    ProperKeys(w);
    OpenCallsMembers(log, done);
    forall p | p in FullScan(log) ensures p.ToolUse? && Called(log, p.id) && !Answered(log, p.id) {
      var e :| e in log && e.payload == p;
      var i :| 0 <= i < |log| && log[i] == e;
      assert IsUse(log, i, p.id);
    }
    OpenCallsDistinct(log, 0, log, done);
  }

  lemma {:induction false} OpenCallsDistinct(log: seq<Event>, from: nat, events: seq<Event>, done: set<ToolId>)
    requires ToolDiscipline(log) && from + |events| <= |log|
    requires forall i :: 0 <= i < |events| ==> events[i] == log[from + i]
    ensures forall j, k :: 0 <= j < k < |OpenCalls(events, done)| ==>
              OpenCalls(events, done)[j].id != OpenCalls(events, done)[k].id
  {
    if events != [] {
      var n := |events| - 1;
      var init, p := events[..n], events[n].payload;
      OpenCallsDistinct(log, from, init, done);
      OpenCallsMembers(init, done);
      if p.ToolUse? && p.id !in done {
        var before := OpenCalls(init, done);
        forall j | 0 <= j < |before| ensures before[j].id != p.id {
          assert before[j] in before;
          var e :| e in init && e.payload == before[j];
          var i :| 0 <= i < |init| && init[i] == e;
          assert IsUse(log, from + i, before[j].id) && IsUse(log, from + n, p.id);
        }
      }
    }
  }

  // ---- Decisions ------------------------------------------------------------------------------------------

  predicate Refused(ds: seq<Decision>) {
    exists d :: d in ds && d.refuses
  }

  /** Held and not refused: it waits for an approval. */
  predicate Held(ds: seq<Decision>) {
    !Refused(ds) && exists d :: d in ds && d.holds
  }

  function FirstReason(ds: seq<Decision>): string {
    if ds == [] then "no reason given"
    else if ds[0].refuses then
      if ds[0].reason.Some? && ds[0].reason.value != "" then ds[0].reason.value else "no reason given"
    else FirstReason(ds[1..])
  }

  /** The first arguments a hook substitutes, or the call's own. */
  function Arguments(call: Payload, ds: seq<Decision>): Json
    requires call.ToolUse?
  {
    if ds == [] then call.arguments
    else if ds[0].arguments.Some? && ds[0].arguments.value.Dict? then ds[0].arguments.value
    else Arguments(call, ds[1..])
  }

  /** The approval requests of a batch: one for each held call, in order. */
  function Requests(pending: seq<Payload>, decisions: seq<seq<Decision>>): (r: seq<Payload>)
    requires |pending| == |decisions| && forall p :: p in pending ==> p.ToolUse?
    ensures forall p :: p in r ==> p.ApprovalRequested?
  {
    if pending == [] then []
    else
      var n := |pending| - 1;
      Requests(pending[..n], decisions[..n])
      + (if Held(decisions[n]) then [ApprovalRequested(pending[n].id)] else [])
  }

  lemma {:induction false} RequestsOnlyForHeld(pending: seq<Payload>, decisions: seq<seq<Decision>>)
    requires |pending| == |decisions| && forall p :: p in pending ==> p.ToolUse?
    ensures forall p :: p in Requests(pending, decisions) ==>
              exists j :: 0 <= j < |pending| && Held(decisions[j]) && p == ApprovalRequested(pending[j].id)
  {
    hide Held;
    if pending != [] {
      var n := |pending| - 1;
      var before := Requests(pending[..n], decisions[..n]);
      RequestsOnlyForHeld(pending[..n], decisions[..n]);
      forall p | p in before
        ensures exists j :: 0 <= j < |pending| && Held(decisions[j]) && p == ApprovalRequested(pending[j].id)
      {
        var j :| 0 <= j < n && Held(decisions[..n][j]) && p == ApprovalRequested(pending[..n][j].id);
        assert decisions[..n][j] == decisions[j];
      }
    }
  }

  /** Exactly one request for each held call, and none for any other. */
  lemma {:induction false} RequestsExact(pending: seq<Payload>, decisions: seq<seq<Decision>>)
    requires |pending| == |decisions| && forall p :: p in pending ==> p.ToolUse?
    requires forall j, k :: 0 <= j < k < |pending| ==> pending[j].id != pending[k].id
    ensures forall j :: 0 <= j < |pending| && Held(decisions[j]) ==>
              multiset(Requests(pending, decisions))[ApprovalRequested(pending[j].id)] == 1
    ensures forall p :: p in Requests(pending, decisions) ==>
              exists j :: 0 <= j < |pending| && Held(decisions[j]) && p == ApprovalRequested(pending[j].id)
  {
    RequestsOnlyForHeld(pending, decisions);
    RequestsCounted(pending, decisions);
  }

  lemma {:induction false} RequestsCounted(pending: seq<Payload>, decisions: seq<seq<Decision>>)
    requires |pending| == |decisions| && forall p :: p in pending ==> p.ToolUse?
    requires forall j, k :: 0 <= j < k < |pending| ==> pending[j].id != pending[k].id
    ensures forall j :: 0 <= j < |pending| && Held(decisions[j]) ==>
              multiset(Requests(pending, decisions))[ApprovalRequested(pending[j].id)] == 1
  {
    hide Held, Requests;
    if pending != [] {
      var n := |pending| - 1;
      var before := Requests(pending[..n], decisions[..n]);
      var last := ApprovalRequested(pending[n].id);
      RequestsCounted(pending[..n], decisions[..n]);
      NoRequestYet(pending, decisions, n);
      forall j | 0 <= j < |pending| && Held(decisions[j])
        ensures multiset(Requests(pending, decisions))[ApprovalRequested(pending[j].id)] == 1
      {
        RequestsNext(pending, decisions);
        CountWithLast(before, last, Held(decisions[n]), ApprovalRequested(pending[j].id));
        if j < n {
          assert Held(decisions[..n][j]) && pending[..n][j] == pending[j];
          assert pending[j].id != pending[n].id;
        }
      }
    }
  }

  lemma RequestsNext(pending: seq<Payload>, decisions: seq<seq<Decision>>)
    requires 0 < |pending| == |decisions| && forall p :: p in pending ==> p.ToolUse?
    ensures var n := |pending| - 1;
            Requests(pending, decisions)
            == Requests(pending[..n], decisions[..n])
               + (if Held(decisions[n]) then [ApprovalRequested(pending[n].id)] else [])
  {
  }

  lemma NoRequestYet(pending: seq<Payload>, decisions: seq<seq<Decision>>, n: nat)
    requires n < |pending| == |decisions| && forall p :: p in pending ==> p.ToolUse?
    requires forall j, k :: 0 <= j < k < |pending| ==> pending[j].id != pending[k].id
    ensures multiset(Requests(pending[..n], decisions[..n]))[ApprovalRequested(pending[n].id)] == 0
  {
    hide Held, Requests;
    RequestsOnlyForHeld(pending[..n], decisions[..n]);
    var last := ApprovalRequested(pending[n].id);
    forall p | p in Requests(pending[..n], decisions[..n]) ensures p != last {
      var j :| 0 <= j < n && Held(decisions[..n][j]) && p == ApprovalRequested(pending[..n][j].id);
      assert pending[j].id != pending[n].id;
    }
    assert last !in Requests(pending[..n], decisions[..n]);
  }

  lemma CountWithLast(before: seq<Payload>, last: Payload, taken: bool, p: Payload)
    ensures multiset(before + (if taken then [last] else []))[p]
         == multiset(before)[p] + (if taken && p == last then 1 else 0)
  {
    if !taken { assert before + [] == before; }
  }

  /** What the hook occasions from `from` on decide about `n` calls. */
  function DecisionsFrom(s: Script, from: nat, n: nat): (r: seq<seq<Decision>>)
    ensures |r| == n && forall j :: 0 <= j < n ==> r[j] == Decisions(s.hooks(from + j))
  {
    seq(n, j requires 0 <= j < n => Decisions(s.hooks(from + j)))
  }

  lemma DecisionsNext(s: Script, from: nat, n: nat)
    ensures DecisionsFrom(s, from, n + 1) == DecisionsFrom(s, from, n) + [Decisions(s.hooks(from + n))]
  {
  }

  /** Some hook point among the `n` occasions from `from` on abandons the turn. */
  ghost predicate AnyFatal(s: Script, from: nat, n: nat) {
    exists k: nat :: from <= k < from + n && Fatal(s.hooks(k))
  }

  lemma NoneFatal(s: Script, from: nat)
    ensures !AnyFatal(s, from, 0) && DecisionsFrom(s, from, 0) == []
  {
  }

  lemma AnyFatalNext(s: Script, from: nat, i: nat, n: nat)
    requires i < n
    ensures AnyFatal(s, from, i + 1) <==> AnyFatal(s, from, i) || Fatal(s.hooks(from + i))
    ensures Fatal(s.hooks(from + i)) ==> AnyFatal(s, from, n)
  {
  }

  /** The call as it is run, with the first substituted arguments. */
  function Overridden(call: Payload, ds: seq<Decision>): (r: Payload)
    requires call.ToolUse?
    ensures r.ToolUse? && r.id == call.id && r.name == call.name
  {
    ToolUse(call.id, call.name, Arguments(call, ds))
  }

  /** What dispatching one call logs, before the hooks after it. */
  function Outcome(registry: map<string, ToolKind>, call: Payload, ds: seq<Decision>, o: ToolOutcome): seq<Payload>
    requires call.ToolUse?
  {
    if Refused(ds) then [ToolResult(call.id, Some(Null), Some("denied by hook: " + FirstReason(ds)))]
    else Appends(registry, Overridden(call, ds), o)
  }

  /** The handler runs of a batch: the registered calls that no hook refused, in order. */
  function RunsOf(registry: map<string, ToolKind>, calls: seq<Payload>, decisions: seq<seq<Decision>>): seq<ToolRun>
    requires |calls| == |decisions| && forall p :: p in calls ==> p.ToolUse?
  {
    if calls == [] then []
    else
      var n := |calls| - 1;
      var call := Overridden(calls[n], decisions[n]);
      RunsOf(registry, calls[..n], decisions[..n])
      + (if !Refused(decisions[n]) && call.name in registry then [RunOf(call)] else [])
  }

  lemma OneRun(registry: map<string, ToolKind>, call: Payload, ds: seq<Decision>)
    requires call.ToolUse?
    ensures RunsOf(registry, [call], [ds])
         == if !Refused(ds) && call.name in registry then [RunOf(Overridden(call, ds))] else []
  {
  }

  /** Answering an open call, by a refusal or by a run, as an act of the history. */
  lemma OutcomeReached(w: World, registry: map<string, ToolKind>, call: Payload, ds: seq<Decision>, o: ToolOutcome)
    requires Once(w) && call.ToolUse? && Called(w.log, call.id) && !Answered(w.log, call.id)
    ensures var to := World(AddAll(w.log, Outcome(registry, call, ds, o)), w.runs + RunsOf(registry, [call], [ds]));
            Reached(w, to) && Once(to) && Answers(w.log, to.log, {call.id})
  {
    var result := ToolResult(call.id, Some(Null), Some("denied by hook: " + FirstReason(ds)));
    var run := Overridden(call, ds);
    var runs := if !Refused(ds) && run.name in registry then [RunOf(run)] else [];
    assert RunsOf(registry, [call], [ds]) == runs;
    ReachedRefl(w);
    if Refused(ds) {
      ReachedNext(w, w, LogAct(Answer(call.id, result.output, result.error)));
      OneAnswerAfter(w.log, w.log, result);
      assert [result][..0] == [] && w.runs + [] == w.runs;
    } else {
      RunReached(w, w, registry, run, o);
    }
    ReachedKeepsOnce(w, World(AddAll(w.log, Outcome(registry, call, ds, o)), w.runs + runs));
  }

  // ---- Provider calls ----------------------------------------------------------------------------------------

  /** The errors of `n` failed attempts; only the last one of a failed turn is terminal. */
  function ProviderErrors(n: nat, failed: bool): (r: seq<Payload>)
    ensures |r| == n
    ensures forall i :: 0 <= i < n ==> r[i] == ProviderError(i + 1, failed && i + 1 == n)
  {
    if n == 0 then [] else ProviderErrors(n - 1, false) + [ProviderError(n, failed)]
  }

  lemma NoneAdded(log: seq<Event>)
    ensures AddAll(log, []) == log && AddAll(log, ProviderErrors(0, false)) == log
  {
  }

  lemma ErrorsNext(log: seq<Event>, n: nat, failed: bool)
    requires n > 0
    ensures AddAll(log, ProviderErrors(n, failed))
         == Add(AddAll(log, ProviderErrors(n - 1, false)), ProviderError(n, failed))
  {
    assert ProviderErrors(n, failed)[..n - 1] == ProviderErrors(n - 1, false);
  }

  lemma FreshKept(s: Script, from: nat, to: nat, a: seq<Event>, b: seq<Event>)
    requires FreshIds(s, from, a) && from <= to
    requires forall i, id :: IsUse(b, i, id) ==> Called(a, id)
    ensures FreshIds(s, to, b)
  {
  }

  /** Ingested events are possible acts: the calls among them are new. */
  lemma {:induction false} IngestReached(s: Script, n: nat, w0: World, w: World, k: nat)
    requires Reached(w0, w) && ScriptOk(s) && FreshIds(s, n, w.log)
    requires s.provider(n).Response? && k <= |s.provider(n).events|
    ensures var log := AddAll(w.log, s.provider(n).events[..k]);
            && Reached(w0, w.(log := log))
            && (forall i, id :: IsUse(log, i, id) ==> IsUse(w.log, i, id) || exists x :: x < k && NewId(s, n, x, id))
            && (forall j, id :: IsResult(log, j, id) <==> IsResult(w.log, j, id))
  {
    if k > 0 {
      var events := s.provider(n).events;
      assert events[..k][..k - 1] == events[..k - 1];
      IngestReached(s, n, w0, w, k - 1);
      var before := w.(log := AddAll(w.log, events[..k - 1]));
      var p := events[k - 1];
      assert p in events && IngestedPayload(p);
      match p {
        case ToolUse(id, name, args) =>
          assert NewId(s, n, k - 1, id);
          assert !Called(before.log, id);
          ReachedNext(w0, before, LogAct(Call(id, name, args)));
        case _ => ReachedNext(w0, before, LogAct(Note(p)));
      }
    }
  }

  lemma FreshAfterIngest(s: Script, n: nat, log: seq<Event>, to: seq<Event>)
    requires FreshIds(s, n, log)
    requires forall i, id :: IsUse(to, i, id) ==> IsUse(log, i, id) || exists x :: NewId(s, n, x, id)
    ensures FreshIds(s, n + 1, to)
  {
    forall m: nat, i, id | m >= n + 1 && NewId(s, m, i, id)
      ensures Proper(id) && !Called(to, id)
    {
      assert forall k :: IsUse(to, k, id) ==> IsUse(log, k, id);
    }
  }

  /** The stop reason of the last assistant message. */
  function LastStop(log: seq<Event>): string {
    if log == [] then "end_turn"
    else
      var p := log[|log| - 1].payload;
      if p.AssistantMessage? then p.stopReason else LastStop(log[..|log| - 1])
  }

  predicate HasTerminal(log: seq<Event>) {
    exists e :: e in log && e.payload == RuntimeError(true)
  }

  /** How a turn ends: with a stop reason, or abandoned by a hook. */
  datatype TurnEnd = Stopped(reason: string) | Abandoned

  lemma TerminalStays(a: seq<Event>, b: seq<Event>)
    requires a <= b && HasTerminal(a)
    ensures HasTerminal(b)
  {
    var e :| e in a && e.payload == RuntimeError(true);
    assert e in b;
  }

  lemma OneTurnMore(turn: int, maxTurns: int, attempts: int)
    requires 0 <= turn < maxTurns && attempts >= 0
    ensures (turn + 1) * attempts == turn * attempts + attempts
    ensures (turn + 1) * attempts <= maxTurns * attempts
  {
    hide *;
    var more := maxTurns - turn - 1;
    NonNegativeProduct(more, attempts);
    assert maxTurns * attempts == turn * attempts + attempts + more * attempts by {
      assert maxTurns == turn + 1 + more;
    }
  }

  lemma {:induction false} NonNegativeProduct(turns: nat, attempts: nat)
    ensures turns * attempts >= 0
  {
    hide *;
    if turns > 0 { NonNegativeProduct(turns - 1, attempts); }
  }

  // ---- What the provider is shown --------------------------------------------------------------------------

  /** Each call is shown with its result, and each result after its call. */
  ghost predicate WholePairs(stream: seq<Event>) {
    && (forall e :: e in stream && e.payload.ToolUse? ==>
          exists r :: r in stream && r.payload.ToolResult? && r.payload.toolUseId == e.payload.id && e.num < r.num)
    && (forall r :: r in stream && r.payload.ToolResult? ==>
          exists e :: e in stream && e.payload.ToolUse? && e.payload.id == r.payload.toolUseId && e.num < r.num)
  }

  /** Where every call is answered, the effective stream shows only whole pairs. */
  lemma AnsweredStreamIsWhole(w: World)
    requires Once(w) && AllAnswered(w.log)
    ensures Apply(w.log).Success? && WholePairs(Apply(w.log).value)
  {
    hide Apply, Inv;
    var log := w.log;
    ApplySucceeds(log);
    var stream := Effective(log);
    forall e | e in stream && e.payload.ToolUse?
      ensures exists r :: r in stream && r.payload.ToolResult? && r.payload.toolUseId == e.payload.id && e.num < r.num
    {
      var i := ShownAt(w, e);
      assert IsUse(log, i, e.payload.id);
      var j :| IsResult(log, j, e.payload.id);
      PairsStayWhole(log, i, e.payload.id);
      PairsInOrder(w, i, j, e.payload.id);
      assert log[j] in stream;
    }
    forall r | r in stream && r.payload.ToolResult?
      ensures exists e :: e in stream && e.payload.ToolUse? && e.payload.id == r.payload.toolUseId && e.num < r.num
    {
      var j := ShownAt(w, r);
      var i := UseOfResult(w, j, r.payload.toolUseId);
      PairsStayWhole(log, i, r.payload.toolUseId);
      PairsInOrder(w, i, j, r.payload.toolUseId);
      assert log[i] in stream;
    }
  }

  lemma ShownAt(w: World, e: Event) returns (i: int)
    requires Once(w) && Apply(w.log).Success? && e in Apply(w.log).value && !e.payload.Summary?
    ensures 0 <= i < |w.log| && w.log[i] == e
  {
    RenderedEvents(w.log, Live(w.log), e);
    i :| 0 <= i < |w.log| && w.log[i] == e;
  }

  lemma UseOfResult(w: World, j: int, id: ToolId) returns (i: int)
    requires Once(w) && IsResult(w.log, j, id)
    ensures IsUse(w.log, i, id)
  {
    i :| i < j && IsUse(w.log, i, id);
  }

  lemma PairsInOrder(w: World, i: int, j: int, id: ToolId)
    requires Once(w) && IsUse(w.log, i, id) && IsResult(w.log, j, id)
    ensures w.log[i].num < w.log[j].num
  {
    var k :| k < j && IsUse(w.log, k, id);
  }

  /** `n` calls were made with this request. */
  ghost predicate Asked(before: seq<seq<Event>>, n: int, request: seq<Event>, after: seq<seq<Event>>) {
    && n >= 0 && before <= after && |after| == |before| + n
    && forall k :: |before| <= k < |after| ==> after[k] == request
  }

  /** `n` calls were made, each with a request that shows whole pairs if `whole` holds. */
  ghost predicate AllAsked(before: seq<seq<Event>>, n: int, whole: bool, after: seq<seq<Event>>) {
    && n >= 0 && before <= after && |after| == |before| + n
    && (whole ==> forall k :: |before| <= k < |after| ==> WholePairs(after[k]))
  }

  lemma NoneAsked(before: seq<seq<Event>>)
    ensures AllAsked(before, 0, true, before) && AllAsked(before, 0, false, before)
  {
  }

  lemma AskedOne(before: seq<seq<Event>>, n: int, request: seq<Event>, after: seq<seq<Event>>)
    requires Asked(before, n, request, after)
    ensures AllAsked(before, n, WholePairs(request), after) && AllAsked(before, n, false, after)
  {
  }

  lemma AskedMore(
    a: seq<seq<Event>>, m: int, b: seq<seq<Event>>, n: int, c: seq<seq<Event>>, whole: bool, more: bool)
    requires AllAsked(a, m, whole, b) && AllAsked(b, n, more, c) && (whole ==> more)
    ensures AllAsked(a, m + n, whole, c)
  {
    hide WholePairs;
    if whole {
      forall k | |a| <= k < |c| ensures WholePairs(c[k]) {
        if k < |b| { assert c[k] == b[k]; }
      }
    }
  }

  lemma SamePrefix(a: seq<Event>, b: seq<Event>, n: nat)
    requires a <= b && n <= |a|
    ensures a[..n] == b[..n]
  {
  }

  lemma AllAnsweredStays(a: seq<Event>, b: seq<Event>)
    requires SameTools(a, b) && AllAnswered(a)
    ensures AllAnswered(b)
  {
    forall i, id | IsUse(b, i, id) ensures Answered(b, id) {
      AnsweredGrows(a, b, id);
    }
  }

  /** The log after a turn's provider calls, of which the last is call `last`. */
  ghost function AfterCalls(s: Script, from: nat, last: nat, log: seq<Event>): (r: seq<Event>)
    requires from <= last
    ensures log <= r
  {
    if s.provider(last).Response? then AddAll(AddAll(log, ProviderErrors(last - from, false)), s.provider(last).events)
    else AddAll(log, ProviderErrors(last - from + 1, true))
  }

  /** The provider call a turn's retries stop at, when call `from` is its `attempt`-th. */
  function LastCall(s: Script, p: RetryPolicy, from: nat, attempt: nat): (last: nat)
    ensures last >= from
    decreases p.maxAttempts - attempt
  {
    if s.provider(from).Response? || !p.Decide(s.provider(from).error, attempt).retry then from
    else LastCall(s, p, from + 1, attempt + 1)
  }

  /** Retries go on exactly as long as calls fail retryably and attempts remain. */
  lemma {:induction false} LastCallIsFirstToStop(s: Script, p: RetryPolicy, from: nat, attempt: nat)
    requires 1 <= attempt <= p.maxAttempts
    ensures var last := LastCall(s, p, from, attempt);
            && last - from <= p.maxAttempts - attempt
            && (forall k: nat :: from <= k < last ==>
                  && s.provider(k).Error?
                  && match s.provider(k).error.status
                     case Some(status) => status in p.retryableHttp
                     case None => s.provider(k).error.transient)
            && (s.provider(last).Response? || last - from == p.maxAttempts - attempt
                || match s.provider(last).error.status
                   case Some(status) => status !in p.retryableHttp
                   case None => !s.provider(last).error.transient)
    decreases p.maxAttempts - attempt
  {
    if s.provider(from).Error? && p.Decide(s.provider(from).error, attempt).retry {
      LastCallIsFirstToStop(s, p, from + 1, attempt + 1);
    }
  }

  /** How the last stop reason ends a turn that started at `turnStart`, and the log it leaves. */
  ghost predicate ClosedTurn(log: seq<Event>, turnStart: nat, stop: string, after: seq<Event>)
    requires turnStart <= |log|
  {
    var calls := OpenCalls(log[turnStart..], {});
    if calls != [] && LastStop(log) != "tool_use" then
      stop == "incomplete_tool_batch" && after == AddAll(log, CloseResults(calls, LastStop(log)))
    else stop == LastStop(log) && after == log
  }

  lemma ErrorsReached(s: Script, from: nat, to: nat, w: World, errors: seq<Payload>)
    requires FreshIds(s, from, w.log) && from <= to && forall p :: p in errors ==> p.ProviderError?
    ensures var log := AddAll(w.log, errors);
            Reached(w, w.(log := log)) && FreshIds(s, to, log) && SameTools(w.log, log)
  {
    ReachedRefl(w);
    NotesReached(w, w, errors);
    FreshKept(s, from, to, w.log, AddAll(w.log, errors));
  }

  /** One turn's provider calls, failed and successful, as acts of the history. */
  lemma ProviderReached(s: Script, from: nat, last: nat, w: World, log: seq<Event>)
    requires Once(w) && ScriptOk(s) && FreshIds(s, from, w.log) && from <= last
    requires log == AfterCalls(s, from, last, w.log)
    ensures Reached(w, w.(log := log)) && Once(w.(log := log)) && FreshIds(s, last + 1, log)
    ensures w.log <= log && forall j, id :: IsResult(log, j, id) ==> j < |w.log|
    ensures s.provider(last).Error? ==> SameTools(w.log, log)
  {
    if s.provider(last).Error? {
      ErrorsReached(s, from, last + 1, w, ProviderErrors(last - from + 1, true));
    } else {
      var errors, events := ProviderErrors(last - from, false), s.provider(last).events;
      ErrorsReached(s, from, last, w, errors);
      var mid := w.(log := AddAll(w.log, errors));
      IngestReached(s, last, w, mid, |events|);
      assert events[..|events|] == events;
      FreshAfterIngest(s, last, mid.log, AddAll(mid.log, events));
    }
    ReachedKeepsOnce(w, w.(log := log));
  }

  // ---- Closing a batch that must not run ------------------------------------------------------------------

  function CloseResult(call: Payload, stop: string): Payload
    requires call.ToolUse?
  {
    ToolResult(Printed(call.id), Some(Null), Some(
      "tool " + call.name + " did not complete: assistant turn ended with stop_reason " + stop
      + " before a tool result was recorded"))
  }

  function CloseResults(calls: seq<Payload>, stop: string): (r: seq<Payload>)
    requires forall p :: p in calls ==> p.ToolUse?
    ensures |r| == |calls|
    ensures forall i :: 0 <= i < |calls| ==> r[i] == CloseResult(calls[i], stop)
  {
    seq(|calls|, i requires 0 <= i < |calls| => CloseResult(calls[i], stop))
  }

  /** The results a closed turn adds: for each call an error that names the tool and the stop reason. */
  lemma ClosedResults(log: seq<Event>, calls: seq<Payload>, stop: string)
    requires forall p :: p in calls ==> p.ToolUse?
    ensures var after := AddAll(log, CloseResults(calls, stop));
            && |after| == |log| + |calls|
            && forall i :: 0 <= i < |calls| && calls[i].id.TextId? ==>
                 after[|log| + i].payload
                 == ToolResult(
                      calls[i].id,
                      Some(Null),
                      Some("tool " + calls[i].name + " did not complete: assistant turn ended with stop_reason " + stop
                           + " before a tool result was recorded"))
  {
    var results := CloseResults(calls, stop);
    forall i | 0 <= i < |calls| ensures AddAll(log, results)[|log| + i].payload == results[i] {
      AddAllAt(log, results, i);
    }
  }

  /** These calls are open, and no two share an id. */
  ghost predicate OpenBatch(log: seq<Event>, calls: seq<Payload>) {
    && (forall p :: p in calls ==> p.ToolUse? && Proper(p.id) && Called(log, p.id) && !Answered(log, p.id))
    && (forall j, k :: 0 <= j < k < |calls| ==> calls[j].id != calls[k].id)
  }

  function Ids(calls: seq<Payload>): set<ToolId>
    requires forall p :: p in calls ==> p.ToolUse?
  {
    set p | p in calls :: p.id
  }

  /** `b` continues `a` with no calls, with an answer to each of these ids, and with no other answers. */
  ghost predicate Answers(a: seq<Event>, b: seq<Event>, ids: set<ToolId>) {
    && a <= b
    && (forall i, x :: IsUse(b, i, x) <==> IsUse(a, i, x))
    && (forall j, x :: IsResult(a, j, x) ==> IsResult(b, j, x))
    && (forall j, x :: IsResult(b, j, x) && !IsResult(a, j, x) ==> x in ids)
    && (forall x :: x in ids ==> Answered(b, x))
  }

  lemma AnswersThen(a: seq<Event>, b: seq<Event>, c: seq<Event>, s: set<ToolId>, t: set<ToolId>)
    requires Answers(a, b, s) && Answers(b, c, t)
    ensures Answers(a, c, s + t)
  {
    forall x | x in s ensures Answered(c, x) { AnsweredGrows(b, c, x); }
  }

  lemma AnswersThenQuiet(a: seq<Event>, b: seq<Event>, c: seq<Event>, ids: set<ToolId>)
    requires Answers(a, b, ids) && SameTools(b, c)
    ensures Answers(a, c, ids)
  {
    forall x | x in ids ensures Answered(c, x) { AnsweredGrows(b, c, x); }
  }

  lemma QuietThenAnswers(a: seq<Event>, b: seq<Event>, c: seq<Event>, ids: set<ToolId>)
    requires SameTools(a, b) && Answers(b, c, ids)
    ensures Answers(a, c, ids)
  {
  }

  /** What is not among the ids stays as it was. */
  lemma AnswersOthers(a: seq<Event>, b: seq<Event>, ids: set<ToolId>, id: ToolId)
    requires Answers(a, b, ids) && id !in ids
    ensures Called(b, id) <==> Called(a, id)
    ensures Answered(b, id) <==> Answered(a, id)
  {
    if Called(a, id) {
      var i :| IsUse(a, i, id);
      assert IsUse(b, i, id);
    }
    if Answered(a, id) { AnsweredGrows(a, b, id); }
  }

  lemma IdsNext(calls: seq<Payload>, k: nat)
    requires k < |calls| && forall p :: p in calls ==> p.ToolUse?
    requires forall i, j :: 0 <= i < j < |calls| ==> calls[i].id != calls[j].id
    ensures Ids(calls[..k + 1]) == Ids(calls[..k]) + {calls[k].id} && calls[k].id !in Ids(calls[..k])
  {
    assert calls[..k + 1] == calls[..k] + [calls[k]];
  }

  lemma CloseOne(w0: World, w: World, call: Payload, stop: string)
    requires Reached(w0, w) && call.ToolUse? && Proper(call.id) && Called(w.log, call.id) && !Answered(w.log, call.id)
    ensures var log := Add(w.log, CloseResult(call, stop));
            Reached(w0, w.(log := log)) && Answers(w.log, log, {call.id})
  {
    var result := CloseResult(call, stop);
    ReachedNext(w0, w, LogAct(Answer(call.id, result.output, result.error)));
    OneAnswerAfter(w.log, w.log, result);
  }

  lemma NoneClosed(log: seq<Event>, calls: seq<Payload>, stop: string)
    requires forall p :: p in calls ==> p.ToolUse?
    ensures AddAll(log, CloseResults(calls[..0], stop)) == log && Answers(log, log, Ids(calls[..0]))
  {
    assert CloseResults(calls[..0], stop) == [];
  }

  lemma CloseNext(log: seq<Event>, calls: seq<Payload>, stop: string, k: nat)
    requires 0 < k <= |calls| && forall p :: p in calls ==> p.ToolUse?
    ensures AddAll(log, CloseResults(calls[..k], stop))
         == Add(AddAll(log, CloseResults(calls[..k - 1], stop)), CloseResult(calls[k - 1], stop))
  {
    assert CloseResults(calls[..k], stop)[..k - 1] == CloseResults(calls[..k - 1], stop);
  }

  lemma {:induction false} CloseReached(w: World, calls: seq<Payload>, stop: string, k: nat)
    requires OpenBatch(w.log, calls) && k <= |calls|
    ensures var log := AddAll(w.log, CloseResults(calls[..k], stop));
            Reached(w, w.(log := log)) && Answers(w.log, log, Ids(calls[..k]))
  {
    hide Reached, Possible, Answers, AddAll, CloseResults;
    if k == 0 {
      ReachedRefl(w);
      NoneClosed(w.log, calls, stop);
    } else {
      CloseReached(w, calls, stop, k - 1);
      var before := w.(log := AddAll(w.log, CloseResults(calls[..k - 1], stop)));
      var call := calls[k - 1];
      assert call in calls;
      CloseNext(w.log, calls, stop, k);
      IdsNext(calls, k - 1);
      AnswersOthers(w.log, before.log, Ids(calls[..k - 1]), call.id);
      CloseOne(w, before, call, stop);
      AnswersThen(w.log, before.log, Add(before.log, CloseResult(call, stop)), Ids(calls[..k - 1]), {call.id});
    }
  }

  // ---- Batches --------------------------------------------------------------------------------------------

  /** The first `k` calls are answered and their runs recorded; nothing else is. */
  ghost predicate RanUntil(registry: map<string, ToolKind>, pending: seq<Payload>, decisions: seq<seq<Decision>>,
                           from: World, to: World, k: nat)
    requires k <= |pending| == |decisions| && forall p :: p in pending ==> p.ToolUse?
  {
    && to.runs == from.runs + RunsOf(registry, pending[..k], decisions[..k])
    && Answers(from.log, to.log, Ids(pending[..k]))
    && OutcomesLogged(registry, pending, decisions, from.log, to.log, k)
  }

  ghost predicate EndsOutcome(
    registry: map<string, ToolKind>, call: Payload, ds: seq<Decision>, o: ToolOutcome, p: Payload)
    requires call.ToolUse?
  {
    var outcome := Outcome(registry, call, ds, o);
    outcome != [] && outcome[|outcome| - 1] == p
  }

  ghost predicate MayEnd(registry: map<string, ToolKind>, call: Payload, ds: seq<Decision>, p: Payload)
    requires call.ToolUse?
  {
    exists o :: EndsOutcome(registry, call, ds, o, p)
  }

  /** The new result of each of the first `k` calls is the one its dispatch ends with. */
  ghost predicate OutcomesLogged(registry: map<string, ToolKind>, pending: seq<Payload>, decisions: seq<seq<Decision>>,
                                 from: seq<Event>, to: seq<Event>, k: nat)
    requires k <= |pending| == |decisions| && forall p :: p in pending ==> p.ToolUse?
  {
    forall i, j :: 0 <= j < k && |from| <= i && IsResult(to, i, pending[j].id) ==>
      MayEnd(registry, pending[j], decisions[j], to[i].payload)
  }

  lemma OutcomeEnds(registry: map<string, ToolKind>, call: Payload, ds: seq<Decision>, o: ToolOutcome,
                    from: seq<Event>, to: seq<Event>)
    requires call.ToolUse? && ToolDiscipline(to) && AddAll(from, Outcome(registry, call, ds, o)) <= to
    ensures forall i :: IsResult(to, i, call.id) ==> MayEnd(registry, call, ds, to[i].payload)
  {
    var outcome := Outcome(registry, call, ds, o);
    var m := |from| + |outcome| - 1;
    assert outcome[|outcome| - 1].ToolResult? && outcome[|outcome| - 1].toolUseId == call.id;
    assert AddAll(from, outcome)[m].payload == outcome[|outcome| - 1];
    assert IsResult(to, m, call.id);
    assert EndsOutcome(registry, call, ds, o, outcome[|outcome| - 1]);
  }

  /** The batch ran, up to the call at which a hook abandoned it. */
  ghost predicate Ran(registry: map<string, ToolKind>, pending: seq<Payload>, decisions: seq<seq<Decision>>,
                      from: World, to: World, failed: bool)
    requires |pending| == |decisions| && forall p :: p in pending ==> p.ToolUse?
  {
    exists k :: 0 <= k <= |pending| && (!failed ==> k == |pending|)
                && RanUntil(registry, pending, decisions, from, to, k)
  }

  /** Nothing ran, nothing was answered, and the last events are the requests of the batch. */
  ghost predicate Paused(pending: seq<Payload>, decisions: seq<seq<Decision>>, from: World, to: World)
    requires |pending| == |decisions| && forall p :: p in pending ==> p.ToolUse?
  {
    && to.runs == from.runs && SameTools(from.log, to.log)
    && exists mid :: SameTools(from.log, mid) && to.log == AddAll(mid, Requests(pending, decisions))
  }

  function HeldIds(pending: seq<Payload>, decisions: seq<seq<Decision>>): set<ToolId>
    requires |pending| == |decisions| && forall p :: p in pending ==> p.ToolUse?
  {
    set j | 0 <= j < |pending| && Held(decisions[j]) :: pending[j].id
  }

  /** Once the held calls of a paused batch are resolved, exactly the others of the batch are still open. */
  lemma PauseLeavesOthersOpen(
    pending: seq<Payload>, decisions: seq<seq<Decision>>, from: World, to: World, after: seq<Event>)
    requires Once(from) && pending == FullScan(from.log) && |pending| == |decisions|
    requires Paused(pending, decisions, from, to) && Answers(to.log, after, HeldIds(pending, decisions))
    ensures forall j :: 0 <= j < |pending| ==> (Answered(after, pending[j].id) <==> Held(decisions[j]))
    ensures AllAnswered(after) <==> forall j :: 0 <= j < |pending| ==> Held(decisions[j])
  {
    hide FullScan, Once, Held;
    FullScanIsOpenCalls(from);
    var ids := HeldIds(pending, decisions);
    forall j | 0 <= j < |pending| ensures Answered(after, pending[j].id) <==> Held(decisions[j]) {
      assert pending[j] in pending;
      if Held(decisions[j]) {
        assert pending[j].id in ids;
      } else {
        assert pending[j].id !in ids;
        AnswersOthers(to.log, after, ids, pending[j].id);
        OpenAfterQuiet(from.log, to.log, pending[j].id);
      }
    }
    QuietThenAnswers(from.log, to.log, after, ids);
    BatchDecides(from, pending, after, ids);
  }

  /** Where only calls of the full scan are answered, all are answered when all of the scan are. */
  lemma BatchDecides(from: World, pending: seq<Payload>, after: seq<Event>, ids: set<ToolId>)
    requires Once(from) && pending == FullScan(from.log) && Answers(from.log, after, ids)
    ensures forall p :: p in pending ==> p.ToolUse?
    ensures AllAnswered(after) <==> forall j :: 0 <= j < |pending| ==> Answered(after, pending[j].id)
  {
    hide FullScan, Once;
    FullScanIsOpenCalls(from);
    if AllAnswered(after) {
      forall j | 0 <= j < |pending| ensures Answered(after, pending[j].id) {
        assert pending[j] in pending;
        var i :| IsUse(from.log, i, pending[j].id);
        assert IsUse(after, i, pending[j].id);
      }
    } else {
      var i, id :| IsUse(after, i, id) && !Answered(after, id);
      assert IsUse(from.log, i, id);
      if Answered(from.log, id) { AnsweredGrows(from.log, after, id); }
      var j :| 0 <= j < |pending| && pending[j] == from.log[i].payload;
    }
  }

  predicate EndsInRequest(log: seq<Event>) {
    log != [] && log[|log| - 1].payload.ApprovalRequested?
  }

  lemma RequestsAtEnd(log: seq<Event>, requests: seq<Payload>)
    requires requests != [] && forall p :: p in requests ==> p.ApprovalRequested?
    ensures EndsInRequest(AddAll(log, requests))
  {
    assert requests[|requests| - 1] in requests;
  }

  lemma BatchStart(registry: map<string, ToolKind>, w: World)
    ensures RanUntil(registry, [], [], w, w, 0)
  {
  }

  lemma RanNext(registry: map<string, ToolKind>, pending: seq<Payload>, decisions: seq<seq<Decision>>,
                a: World, b: World, c: World, k: nat)
    requires k < |pending| == |decisions|
    requires forall p :: p in pending ==> p.ToolUse?
    requires forall i, j :: 0 <= i < j < |pending| ==> pending[i].id != pending[j].id
    requires RanUntil(registry, pending, decisions, a, b, k)
    requires c.runs == b.runs + RunsOf(registry, [pending[k]], [decisions[k]])
    requires Answers(b.log, c.log, {pending[k].id})
    requires forall i :: IsResult(c.log, i, pending[k].id) ==>
               MayEnd(registry, pending[k], decisions[k], c.log[i].payload)
    ensures RanUntil(registry, pending, decisions, a, c, k + 1)
  {
    hide MayEnd, RunsOf;
    assert OutcomesLogged(registry, pending, decisions, a.log, c.log, k + 1) by {
      forall i, j | 0 <= j < k + 1 && |a.log| <= i && IsResult(c.log, i, pending[j].id)
        ensures MayEnd(registry, pending[j], decisions[j], c.log[i].payload)
      {
        if j < k {
          assert pending[j].id != pending[k].id && IsResult(b.log, i, pending[j].id);
        }
      }
    }
    RanNextRuns(registry, pending, decisions, a, b, c, k);
  }

  lemma RanNextRuns(registry: map<string, ToolKind>, pending: seq<Payload>, decisions: seq<seq<Decision>>,
                    a: World, b: World, c: World, k: nat)
    requires k < |pending| == |decisions|
    requires forall p :: p in pending ==> p.ToolUse?
    requires forall i, j :: 0 <= i < j < |pending| ==> pending[i].id != pending[j].id
    requires b.runs == a.runs + RunsOf(registry, pending[..k], decisions[..k])
    requires Answers(a.log, b.log, Ids(pending[..k]))
    requires c.runs == b.runs + RunsOf(registry, [pending[k]], [decisions[k]])
    requires Answers(b.log, c.log, {pending[k].id})
    ensures c.runs == a.runs + RunsOf(registry, pending[..k + 1], decisions[..k + 1])
    ensures Answers(a.log, c.log, Ids(pending[..k + 1]))
  {
    hide Answers;
    IdsNext(pending, k);
    AnswersThen(a.log, b.log, c.log, Ids(pending[..k]), {pending[k].id});
    OneRun(registry, pending[k], decisions[k]);
    assert pending[..k + 1][..k] == pending[..k] && decisions[..k + 1][..k] == decisions[..k];
  }

  lemma RanAfterQuiet(registry: map<string, ToolKind>, pending: seq<Payload>, decisions: seq<seq<Decision>>,
                      a: World, b: World, c: World, failed: bool)
    requires |pending| == |decisions| && forall p :: p in pending ==> p.ToolUse?
    requires a.runs == b.runs && SameTools(a.log, b.log)
    requires Ran(registry, pending, decisions, b, c, failed)
    ensures Ran(registry, pending, decisions, a, c, failed)
  {
    var k :| 0 <= k <= |pending| && (!failed ==> k == |pending|) && RanUntil(registry, pending, decisions, b, c, k);
    QuietThenAnswers(a.log, b.log, c.log, Ids(pending[..k]));
    assert OutcomesLogged(registry, pending, decisions, a.log, c.log, k) by {
      forall i, j | 0 <= j < k && |a.log| <= i && IsResult(c.log, i, pending[j].id)
        ensures MayEnd(registry, pending[j], decisions[j], c.log[i].payload)
      {
        if i < |b.log| { assert IsResult(b.log, i, pending[j].id); }
      }
    }
    assert RanUntil(registry, pending, decisions, a, c, k);
  }

  lemma OpenBatchStays(a: seq<Event>, b: seq<Event>, pending: seq<Payload>)
    requires SameTools(a, b) && OpenBatch(a, pending)
    ensures OpenBatch(b, pending)
  {
    forall p | p in pending ensures Called(b, p.id) && !Answered(b, p.id) {
      OpenAfterQuiet(a, b, p.id);
    }
  }

  /** What the scan returns is open, each call once. */
  lemma PendingOpen(w: World, from: nat)
    requires Once(w) && from <= |w.log|
    ensures OpenBatch(w.log, OpenCalls(w.log[from..], LatestResults(w.log).Keys))
  {
    var done, events := LatestResults(w.log).Keys, w.log[from..];
    ProperKeys(w);
    OpenCallsMembers(events, done);
    forall p | p in OpenCalls(events, done) ensures p.ToolUse? && Called(w.log, p.id) && !Answered(w.log, p.id) {
      var e :| e in events && e.payload == p;
      var i :| 0 <= i < |events| && events[i] == e;
      assert IsUse(w.log, from + i, p.id);
    }
    OpenCallsDistinct(w.log, from, events, done);
  }

  /** When the full scan has been answered, nothing is open. */
  lemma NoneLeft(registry: map<string, ToolKind>, decisions: seq<seq<Decision>>, from: World, to: World)
    requires Once(from) && |FullScan(from.log)| == |decisions|
    requires Ran(registry, FullScan(from.log), decisions, from, to, false)
    ensures AllAnswered(to.log) && Answers(from.log, to.log, Ids(FullScan(from.log)))
  {
    var pending := FullScan(from.log);
    assert pending[..|pending|] == pending;
    FullScanIsOpenCalls(from);
    forall i, id | IsUse(to.log, i, id) ensures Answered(to.log, id) {
      assert IsUse(from.log, i, id);
      if Answered(from.log, id) {
        AnsweredGrows(from.log, to.log, id);
      } else {
        assert from.log[i].payload in pending;
      }
    }
  }

  /** After the batch the cache knows every call of the log as answered. */
  lemma DrainedAfter(
    w: World, log: seq<Event>, index: nat, known: set<ToolId>, done: set<ToolId>, pending: seq<Payload>)
    requires Once(w) && index <= |log| && known == LatestResults(w.log).Keys && pending == FullScan(w.log)
    requires Answers(w.log, log, Ids(pending)) && known + Ids(pending) <= done
    ensures forall e :: e in log[..index] && e.payload.ToolUse? ==> e.payload.id in done
  {
    ProperKeys(w);
    FullScanIsOpenCalls(w);
    forall e | e in log[..index] && e.payload.ToolUse? ensures e.payload.id in done {
      var i :| 0 <= i < index && log[i] == e;
      assert IsUse(log, i, e.payload.id);
      assert IsUse(w.log, i, e.payload.id);
      if !Answered(w.log, e.payload.id) { assert w.log[i].payload in pending; }
    }
  }

  /** The scan holds the answer of an answered call, and hooks after the call get that very answer. */
  lemma LatestHasAnswer(w: World, id: ToolId)
    requires Once(w) && Called(w.log, id) && Answered(w.log, id)
    ensures id in LatestResults(w.log)
    ensures LatestResults(w.log)[id].payload.ToolResult? && LatestResults(w.log)[id].payload.toolUseId == id
  {
    ProperKeys(w);
  }

  function Unfulfilled(calls: seq<Payload>, done: set<ToolId>): seq<Payload>
    requires forall p :: p in calls ==> p.ToolUse?
  {
    if calls == [] then []
    else
      var p := calls[|calls| - 1];
      Unfulfilled(calls[..|calls| - 1], done) + (if p.id !in done then [p] else [])
  }

  lemma UnfulfilledOne(calls: seq<Payload>, p: Payload, done: set<ToolId>)
    requires p.ToolUse? && forall c :: c in calls ==> c.ToolUse?
    ensures Unfulfilled(calls + [p], done) == Unfulfilled(calls, done) + (if p.id !in done then [p] else [])
  {
    assert (calls + [p])[..|calls|] == calls;
  }

  lemma {:induction false} UnfulfilledOpenCalls(events: seq<Event>, done: set<ToolId>)
    ensures Unfulfilled(OpenCalls(events, {}), done) == OpenCalls(events, done)
  {
    if events != [] {
      var init, p := events[..|events| - 1], events[|events| - 1].payload;
      UnfulfilledOpenCalls(init, done);
      if p.ToolUse? {
        UnfulfilledOne(OpenCalls(init, {}), p, done);
      } else {
        assert OpenCalls(init, {}) + [] == OpenCalls(init, {});
        assert OpenCalls(init, done) + [] == OpenCalls(init, done);
      }
    }
  }

  lemma NothingScanned()
    ensures OpenCalls([], {}) == []
  {
  }

  /** The scan one event further. */
  lemma NextScanned(log: seq<Event>, from: nat, i: nat)
    requires from + i < |log|
    ensures var e := log[from + i];
            && LatestResults(log[..from + i + 1])
               == (if e.payload.ToolResult? && !IsFalse(e.payload.toolUseId) then
                     LatestResults(log[..from + i])[Printed(e.payload.toolUseId) := e]
                   else LatestResults(log[..from + i]))
            && OpenCalls(log[from..][..i + 1], {})
               == OpenCalls(log[from..][..i], {}) + (if e.payload.ToolUse? then [e.payload] else [])
  {
    assert log[..from + i + 1][..from + i] == log[..from + i] && log[..from + i + 1][from + i] == log[from + i];
    assert log[from..][..i + 1][..i] == log[from..][..i];
  }

  /** Where nothing before the index is open, the scan from there on is the full scan. */
  lemma DrainedScan(log: seq<Event>, from: nat, done: set<ToolId>)
    requires from <= |log| && done == LatestResults(log).Keys
    requires forall e :: e in log[..from] && e.payload.ToolUse? ==> e.payload.id in LatestResults(log[..from])
    ensures OpenCalls(log[from..], done) == FullScan(log)
  {
    LatestResultsKeys(log);
    LatestResultsKeys(log[..from]);
    forall e | e in log[..from] && e.payload.ToolUse? ensures e.payload.id in done {
      var j, x :| IsResult(log[..from], j, x) && !IsFalse(x) && Printed(x) == e.payload.id;
      assert IsResult(log, j, x);
    }
    NoOpenCalls(log[..from], done);
    assert log == log[..from] + log[from..];
    OpenCallsConcat(log[..from], log[from..], done);
  }

  method ToolUses(events: seq<Event>) returns (calls: seq<Payload>)
    ensures calls == OpenCalls(events, {})
  {
    calls := [];
    var i := 0;
    while i < |events|
      invariant 0 <= i <= |events| && calls == OpenCalls(events[..i], {})
    {
      assert events[..i + 1][..i] == events[..i];
      if events[i].payload.ToolUse? { calls := calls + [events[i].payload]; }
      i := i + 1;
    }
    assert events[..i] == events;
  }

  /** A turn that made no calls, or whose calls were closed, leaves none open. */
  lemma TurnLeavesNoneOpen(before: seq<Event>, mid: seq<Event>, after: seq<Event>)
    requires before <= mid && AllAnswered(before)
    requires var calls := OpenCalls(mid[|before|..], {});
             (calls == [] && after == mid) || Answers(mid, after, Ids(calls))
    ensures AllAnswered(after)
  {
    var news := mid[|before|..];
    OpenCallsMembers(news, {});
    forall i, id | IsUse(after, i, id) ensures Answered(after, id) {
      if i < |before| {
        assert IsUse(before, i, id);
        AnsweredGrows(before, after, id);
      } else {
        assert IsUse(mid, i, id) && news[i - |before|] == mid[i];
        assert mid[i] in news && mid[i].payload in OpenCalls(news, {});
      }
    }
  }

  /** Calls made after every answer so far are open. */
  lemma TurnCallsOpen(w: World, turnStart: nat)
    requires Once(w) && turnStart <= |w.log|
    requires forall j, id :: IsResult(w.log, j, id) ==> j < turnStart
    ensures OpenBatch(w.log, OpenCalls(w.log[turnStart..], {}))
  {
    var news := w.log[turnStart..];
    var calls := OpenCalls(news, {});
    OpenCallsMembers(news, {});
    forall p | p in calls ensures Called(w.log, p.id) && !Answered(w.log, p.id) {
      var e :| e in news && e.payload == p;
      var i :| 0 <= i < |news| && news[i] == e;
      assert IsUse(w.log, turnStart + i, p.id);
      forall j ensures !IsResult(w.log, j, p.id) {
      }
    }
    OpenCallsDistinct(w.log, turnStart, news, {});
  }
}
