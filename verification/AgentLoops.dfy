/**
  The agent loop: turns of projection, provider and ingestion, retries, two-pass tool dispatch, and the
  incremental scan of the log that finds pending calls.
  */
module AgentLoops {
  import opened Wrappers
  import opened JsonValues
  import opened Events
  import opened Mutations
  import opened LogHistory
  import opened AgentHistory
  import opened SessionState
  import opened Hooks
  import opened ToolRunner
  import opened RetryPolicies
  import opened LoopSpecs
  import opened DispatchLaws
  import opened Progress

  class AgentLoop {
    const session: Session
    const runner: Runner?
    const policy: RetryPolicy
    const maxTurns: int
    const script: Script

    var scanIndex: nat
    var fulfilled: set<ToolId>
    var latest: map<ToolId, Event>

    var hookCalls: nat
    var providerCalls: nat
    var toolCalls: nat
    var turns: nat
    var sleptMs: int
    /** The effective stream of the request of each provider call. */
    ghost var requests: seq<seq<Event>>
    /** The pending calls of each dispatch. */
    ghost var batches: seq<seq<Payload>>

    /** A new loop scans from the start of the log; `at` says which occasions of the script are used up. */
    constructor (session: Session, runner: Runner?, policy: RetryPolicy, maxTurns: int, script: Script, at: Occasions)
      ensures this.session == session && this.runner == runner && this.policy == policy
      ensures this.maxTurns == maxTurns && this.script == script
      ensures scanIndex == 0 && fulfilled == {} && latest == map[]
      ensures Now() == at && sleptMs == 0 && requests == [] && batches == []
    {
      this.session, this.runner, this.policy, this.maxTurns, this.script := session, runner, policy, maxTurns, script;
      scanIndex, fulfilled, latest := 0, {}, map[];
      hookCalls, providerCalls, toolCalls, turns := at.hooks, at.provider, at.tools, at.turns;
      sleptMs := 0;
      requests, batches := [], [];
    }

    function Now(): Occasions
      reads this
    {
      Occasions(hookCalls, providerCalls, toolCalls, turns)
    }

    /** The scan cache holds exactly the results of the log up to the index. */
    ghost predicate Synced()
      reads this, session, session.log
    {
      && scanIndex <= |session.log.events|
      && latest == LatestResults(session.log.events[..scanIndex])
      && fulfilled == latest.Keys
    }

    ghost predicate Valid()
      reads this, session, session.log
    {
      && session.Valid() && policy.Valid() && ScriptOk(script) && Synced()
      && FreshIds(script, providerCalls, session.log.events)
    }

    /** No call before the index is still open: what a fresh loop and a finished dispatch guarantee. */
    ghost predicate Drained()
      reads this, session, session.log
    {
      scanIndex <= |session.log.events|
      && forall e :: e in session.log.events[..scanIndex] && e.payload.ToolUse? ==> e.payload.id in fulfilled
    }

    // ---- Scanning -----------------------------------------------------------------------------------------

    method ScanNewEvents() returns (events: seq<Event>)
      requires scanIndex <= |session.log.events|
      modifies `scanIndex
      ensures scanIndex == |session.log.events|
      ensures events == session.log.events[old(scanIndex)..]
    {
      events := [];
      while scanIndex < |session.log.events|
        invariant old(scanIndex) <= scanIndex <= |session.log.events|
        invariant events == session.log.events[old(scanIndex)..scanIndex]
      {
        events := events + [session.log.events[scanIndex]];
        scanIndex := scanIndex + 1;
      }
    }

    method RememberToolResult(e: Event)
      requires e.payload.ToolResult?
      modifies `fulfilled, `latest
      ensures var id := e.payload.toolUseId;
              if IsFalse(id) then fulfilled == old(fulfilled) && latest == old(latest)
              else fulfilled == old(fulfilled) + {Printed(id)} && latest == old(latest)[Printed(id) := e]
    {
      var id := e.payload.toolUseId;
      if IsFalse(id) { return; }
      fulfilled := fulfilled + {Printed(id)};
      latest := latest[Printed(id) := e];
    }

    /** The pending calls: new calls whose id has no result by now. */
    method PendingToolUses() returns (pending: seq<Payload>)
      requires session.log.Valid() && Synced()
      modifies `scanIndex, `fulfilled, `latest
      ensures Synced() && scanIndex == |session.log.events|
      ensures pending == OpenCalls(session.log.events[old(scanIndex)..], LatestResults(session.log.events).Keys)
      ensures old(Drained()) ==> pending == FullScan(session.log.events)
    {
      hide LatestResults, OpenCalls, Unfulfilled;
      var log := session.log.events;
      ghost var from := scanIndex;
      var news := ScanNewEvents();
      NothingScanned();
      var candidates: seq<Payload> := [];
      var i := 0;
      while i < |news|
        invariant 0 <= i <= |news| && scanIndex == |log|
        invariant latest == LatestResults(log[..from + i]) && fulfilled == latest.Keys
        invariant candidates == OpenCalls(news[..i], {})
      {
        var e := news[i];
        NextScanned(log, from, i);
        if e.payload.ToolResult? {
          RememberToolResult(e);
        } else if e.payload.ToolUse? {
          candidates := candidates + [e.payload];
        }
        i := i + 1;
      }
      assert log[..from + i] == log && news[..i] == news && log[..scanIndex] == log;
      pending := Unfulfilled(candidates, fulfilled);
      UnfulfilledOpenCalls(news, fulfilled);
      if old(Drained()) { DrainedScan(log, from, fulfilled); }
    }

    method RememberNewToolResults()
      requires session.log.Valid() && Synced()
      modifies `scanIndex, `fulfilled, `latest
      ensures Synced() && scanIndex == |session.log.events|
      ensures old(fulfilled) <= fulfilled
    {
      var log := session.log.events;
      ghost var from := scanIndex;
      var news := ScanNewEvents();
      var i := 0;
      while i < |news|
        invariant 0 <= i <= |news| && scanIndex == |log|
        invariant latest == LatestResults(log[..from + i]) && fulfilled == latest.Keys
        invariant old(fulfilled) <= fulfilled
      {
        var e := news[i];
        NextScanned(log, from, i);
        if e.payload.ToolResult? { RememberToolResult(e); }
        i := i + 1;
      }
      assert log[..from + i] == log && log[..scanIndex] == log;
    }

    // ---- Provider -----------------------------------------------------------------------------------------

    /** Appends the events of the reply to the call just counted. */
    method AppendEvents(events: seq<Payload>)
      requires session.log.Valid()
      modifies session.log
      ensures session.log.Valid() && session.log.events == AddAll(old(session.log.events), events)
    {
      var i := 0;
      while i < |events|
        invariant 0 <= i <= |events| && session.log.Valid()
        invariant session.log.events == AddAll(old(session.log.events), events[..i])
      {
        assert events[..i + 1][..i] == events[..i];
        var _ := session.log.Append(events[i]);
        i := i + 1;
      }
      assert events[..i] == events;
    }

    /**
      One turn's provider call: at most `maxAttempts` attempts, one error event per failed attempt,
      numbered from 1, only the last of a failed turn terminal, and a pause before each repetition.
      */
    method CallProviderWithRetry(request: seq<Event>) returns (ok: bool)
      requires session.log.Valid() && policy.Valid()
      modifies `providerCalls, `sleptMs, `requests, session.log
      ensures session.log.Valid() && Asked(old(requests), providerCalls - old(providerCalls), request, requests)
      ensures 1 <= providerCalls - old(providerCalls) <= policy.maxAttempts
      ensures providerCalls - 1 == LastCall(script, policy, old(providerCalls), 1)
      ensures ok <==> script.provider(providerCalls - 1).Response?
      ensures sleptMs == old(sleptMs) + policy.Slept(providerCalls - old(providerCalls))
      ensures session.log.events == AfterCalls(script, old(providerCalls), providerCalls - 1, old(session.log.events))
    {
      hide AddAll;
      ghost var log0, calls0, slept0 := session.log.events, providerCalls, sleptMs;
      var attempt := 1;
      NoneAdded(log0);
      while true
        invariant 1 <= attempt <= policy.maxAttempts && providerCalls == calls0 + attempt - 1
        invariant LastCall(script, policy, calls0, 1) == LastCall(script, policy, providerCalls, attempt)
        invariant sleptMs == slept0 + policy.Slept(attempt)
        invariant session.log.Valid() && session.log.events == AddAll(log0, ProviderErrors(attempt - 1, false))
        invariant Asked(old(requests), attempt - 1, request, requests)
        decreases policy.maxAttempts - attempt
      {
        var reply := script.provider(providerCalls);
        providerCalls := providerCalls + 1;
        requests := requests + [request];
        if reply.Response? {
          AppendEvents(reply.events);
          return true;
        }
        var decision := policy.Decide(reply.error, attempt);
        var _ := session.log.Append(ProviderError(attempt, !decision.retry));
        ErrorsNext(log0, attempt, !decision.retry);
        if !decision.retry { return false; }
        if decision.delayMs > 0 { sleptMs := sleptMs + decision.delayMs; }
        attempt := attempt + 1;
      }
    }

    // ---- Hooks and turns ------------------------------------------------------------------------------------

    /** One hook point. */
    method RunHooks() returns (decisions: seq<Decision>, failed: bool)
      requires Valid()
      modifies `hookCalls, session.log
      ensures Valid() && hookCalls == old(hookCalls) + 1
      ensures failed <==> Fatal(script.hooks(old(hookCalls)))
      ensures !failed ==> decisions == Decisions(script.hooks(old(hookCalls)))
      ensures failed ==> HasTerminal(session.log.events)
      ensures Configured(script.hooks(old(hookCalls)))
      ensures session.log.events == AfterHandlers(old(session.log.events), script.hooks(old(hookCalls)))
      ensures StaysCalm(script, old(Now()), old(session.log.events), session.log.events)
      ensures (old(Drained()) ==> Drained()) && policy.maxAttempts >= 1
      ensures Reached(old(session.World()), session.World())
      ensures SameTools(old(session.log.events), session.log.events)
    {
      ghost var before := session.log.events;
      QuietIsConfigured(script.hooks(hookCalls));
      ghost var at := Now();
      decisions, failed := Invoke(script.hooks(hookCalls), session);
      CalmAfterHook(script, at, before, hookCalls);
      hookCalls := hookCalls + 1;
      FreshKept(script, providerCalls, providerCalls, before, session.log.events);
      SamePrefix(before, session.log.events, scanIndex);
    }

    method AppendRuntimeError()
      requires Valid()
      modifies session.log
      ensures Valid() && Reached(old(session.World()), session.World())
      ensures SameTools(old(session.log.events), session.log.events)
      ensures session.log.events == Add(old(session.log.events), RuntimeError(true))
      ensures HasTerminal(session.log.events)
    {
      ghost var w := session.World();
      var e := session.log.Append(RuntimeError(true));
      assert e in session.log.events;
      ReachedRefl(w);
      NoteReached(w, w, RuntimeError(true));
      ReachedKeepsOnce(w, session.World());
      FreshKept(script, providerCalls, providerCalls, w.log, session.log.events);
      SamePrefix(w.log, session.log.events, scanIndex);
    }

    method TerminalRuntimeError() returns (found: bool)
      ensures found <==> HasTerminal(session.log.events)
    {
      var log := session.log.events;
      var i := 0;
      while i < |log|
        invariant 0 <= i <= |log| && forall k :: 0 <= k < i ==> log[k].payload != RuntimeError(true)
      {
        if log[i].payload == RuntimeError(true) { return true; }
        i := i + 1;
      }
      return false;
    }

    // ---- One turn -------------------------------------------------------------------------------------------

    /** Answers every call of a turn that did not end in tool_use, so that none stays open. */
    method CloseIncompleteToolBatch(turnStart: nat, stop: string) returns (closed: bool)
      requires session.Valid() && turnStart <= |session.log.events|
      requires forall j, id :: IsResult(session.log.events, j, id) ==> j < turnStart
      modifies session.log
      ensures session.Valid() && Reached(old(session.World()), session.World())
      ensures var calls := OpenCalls(old(session.log.events)[turnStart..], {});
              && (closed <==> calls != [] && stop != "tool_use")
              && session.log.events
                 == AddAll(old(session.log.events), if closed then CloseResults(calls, stop) else [])
              && (closed ==> Answers(old(session.log.events), session.log.events, Ids(calls)))
    {
      hide AddAll, OpenCalls, Reached, Answers;
      ghost var w := session.World();
      ReachedRefl(w);
      NoneAdded(w.log);
      var news := session.log.events[turnStart..];
      var calls := ToolUses(news);
      if calls == [] || stop == "tool_use" { return false; }
      AppendEvents(CloseResults(calls, stop));
      TurnCallsOpen(w, turnStart);
      CloseReached(w, calls, stop, |calls|);
      assert calls[..|calls|] == calls;
      ReachedKeepsOnce(w, session.World());
      closed := true;
    }

    method LastStopReason() returns (stop: string)
      ensures stop == LastStop(session.log.events)
    {
      var log := session.log.events;
      var i := |log|;
      assert log[..i] == log;
      while i > 0
        invariant 0 <= i <= |log| && LastStop(log) == LastStop(log[..i])
      {
        assert log[..i][..i - 1] == log[..i - 1];
        if log[i - 1].payload.AssistantMessage? { return log[i - 1].payload.stopReason; }
        i := i - 1;
      }
      return "end_turn";
    }

    /** Everything before the provider call; no end lets the turn go on with a request. */
    method PrepareTurn() returns (end: Option<TurnEnd>, request: seq<Event>)
      requires Valid()
      modifies `hookCalls, `turns, session.log
      ensures Valid() && Reached(old(session.World()), session.World())
      ensures SameTools(old(session.log.events), session.log.events)
      ensures (old(Drained()) ==> Drained()) && policy.maxAttempts >= 1
      ensures old(HasTerminal(session.log.events)) ==> end.Some?
      ensures end.Some? ==> HasTerminal(session.log.events) && end.value in {Abandoned, Stopped("runtime_failed")}
      ensures hookCalls > old(hookCalls)
      ensures end == Some(Abandoned) <==> Fatal(script.hooks(hookCalls - 1))
      ensures end.None? ==> hookCalls == old(hookCalls) + 2 && !Fatal(script.hooks(old(hookCalls)))
                            && turns == old(turns) + 1 && !script.mismatch(old(turns))
      ensures end.None? ==> Configured(script.hooks(old(hookCalls)))
                            && var seen := AfterHandlers(old(session.log.events), script.hooks(old(hookCalls)));
                               Apply(seen) == Success(request)
      ensures end.None? && old(AllAnswered(session.log.events)) ==> WholePairs(request)
      ensures StaysCalm(script, old(Now()), old(session.log.events), session.log.events) && Later(old(Now()), Now())
      ensures Calm(script, old(Now())) && !old(HasTerminal(session.log.events)) ==> end.None?
    {
      hide StaysCalm, Calm;
      hide Inv, Once, Reached, FreshIds, ScriptOk, Decisions, AfterHandlers, Configured, Apply, WholePairs, AllAnswered;
      hide HasTerminal, Fatal, LatestResults, SameTools, AgentLoop.Valid, AgentLoop.Drained;
      ghost var w0 := session.World();
      request := [];
      ghost var at := Now();
      CalmUses(script, at, session.log.events);
      var decisions, abandoned := RunHooks();
      if abandoned { return Some(Abandoned), request; }
      ghost var w1 := session.World();
      if HasTerminal(w0.log) { TerminalStays(w0.log, w1.log); }
      var terminal := TerminalRuntimeError();
      if terminal { return Some(Stopped("runtime_failed")), request; }
      if AllAnswered(w0.log) { AllAnsweredStays(w0.log, w1.log); }
      ghost var now := Now();
      var ok;
      ok, request := Project();
      if !ok {
        end := Some(Stopped("runtime_failed"));
        NotCalm(script, at, w0.log, session.log.events);
      } else {
        now := Now();
        decisions, abandoned := RunHooks();
        end := if abandoned then Some(Abandoned) else None;
        StaysCalmThen(script, at, now, w0.log, w1.log, session.log.events);
      }
      ReachedTransitive(w0, w1, session.World());
      SameToolsThen(w0.log, w1.log, session.log.events);
    }

    /** The projection of the log, or a terminal error where it cannot be made. */
    method Project() returns (ok: bool, request: seq<Event>)
      requires Valid()
      modifies `turns, session.log
      ensures Valid() && Reached(old(session.World()), session.World())
      ensures SameTools(old(session.log.events), session.log.events)
      ensures turns == old(turns) + 1 && (ok <==> !script.mismatch(old(turns)))
      ensures ok ==> session.log.events == old(session.log.events) && Apply(session.log.events) == Success(request)
      ensures ok && AllAnswered(session.log.events) ==> WholePairs(request)
      ensures !ok ==> HasTerminal(session.log.events)
      ensures old(Drained()) ==> Drained()
    {
      ghost var w := session.World();
      ReachedRefl(w);
      request := [];
      ok := !script.mismatch(turns);
      turns := turns + 1;
      if ok { request := ProjectedStream(); } else { AppendRuntimeError(); }
      SamePrefix(w.log, session.log.events, scanIndex);
    }

    /** The effective stream a projection starts from. */
    method ProjectedStream() returns (stream: seq<Event>)
      requires session.Valid()
      ensures Apply(session.log.events) == Success(stream)
      ensures AllAnswered(session.log.events) ==> WholePairs(stream)
    {
      ApplySucceeds(session.log.events);
      var applied := ApplyLog(session.log.events);
      stream := applied.value;
      if AllAnswered(session.log.events) { AnsweredStreamIsWhole(session.World()); }
    }

    method CallProvider(request: seq<Event>) returns (ok: bool)
      requires Valid()
      modifies `providerCalls, `sleptMs, `requests, session.log
      ensures Asked(old(requests), providerCalls - old(providerCalls), request, requests)
      ensures Valid() && Reached(old(session.World()), session.World())
      ensures old(session.log.events) <= session.log.events && (old(Drained()) ==> Drained())
      ensures 1 <= providerCalls - old(providerCalls) <= policy.maxAttempts
      ensures forall j, id :: IsResult(session.log.events, j, id) ==> j < |old(session.log.events)|
      ensures session.log.events == AfterCalls(script, old(providerCalls), providerCalls - 1, old(session.log.events))
      ensures ok <==> script.provider(providerCalls - 1).Response?
      ensures !ok ==> SameTools(old(session.log.events), session.log.events)
      ensures providerCalls - 1 == LastCall(script, policy, old(providerCalls), 1)
      ensures HasTerminal(session.log.events) ==> old(HasTerminal(session.log.events))
    {
      hide AfterCalls, HasTerminal, LastCall, Asked, Reached, Once, Inv, ScriptOk, FreshIds, LatestResults, SameTools;
      ghost var w := session.World();
      ghost var from := providerCalls;
      ok := CallProviderWithRetry(request);
      ProviderReached(script, from, providerCalls - 1, w, session.log.events);
      ProviderTerminal(script, from, providerCalls - 1, w.log);
      SamePrefix(w.log, session.log.events, scanIndex);
    }

    /** The stop reason of the turn, once a batch that must not run is closed. */
    method CloseTurn(turnStart: nat) returns (stop: string)
      requires Valid() && turnStart <= |session.log.events|
      requires forall j, id :: IsResult(session.log.events, j, id) ==> j < turnStart
      modifies session.log
      ensures Valid() && Reached(old(session.World()), session.World())
      ensures old(Drained()) ==> Drained()
      ensures ClosedTurn(old(session.log.events), turnStart, stop, session.log.events)
      ensures AllAnswered(old(session.log.events)[..turnStart]) && stop != "tool_use" ==>
                AllAnswered(session.log.events)
      ensures HasTerminal(session.log.events) ==> old(HasTerminal(session.log.events))
    {
      hide HasTerminal;
      ghost var w := session.World();
      stop := LastStopReason();
      var closed := CloseIncompleteToolBatch(turnStart, stop);
      if closed {
        FreshKept(script, providerCalls, providerCalls, w.log, session.log.events);
        SamePrefix(w.log, session.log.events, scanIndex);
        stop := "incomplete_tool_batch";
      }
      if AllAnswered(w.log[..turnStart]) && stop != "tool_use" {
        assert w.log[|w.log[..turnStart]|..] == w.log[turnStart..];
        TurnLeavesNoneOpen(w.log[..turnStart], w.log, session.log.events);
      }
      ClosedTerminal(w.log, turnStart, stop, session.log.events);
    }

    /** The provider call of a turn, and the stop reason it leads to. */
    method AskProvider(request: seq<Event>) returns (stop: string)
      requires Valid()
      modifies `providerCalls, `sleptMs, `requests, session.log
      ensures Asked(old(requests), providerCalls - old(providerCalls), request, requests)
      ensures Valid() && Reached(old(session.World()), session.World())
      ensures 1 <= providerCalls - old(providerCalls) <= policy.maxAttempts
      ensures old(Drained()) ==> Drained()
      ensures var mid := AfterCalls(script, old(providerCalls), providerCalls - 1, old(session.log.events));
              if script.provider(providerCalls - 1).Error? then stop == "provider_failed" && session.log.events == mid
              else ClosedTurn(mid, |old(session.log.events)|, stop, session.log.events)
      ensures old(AllAnswered(session.log.events)) && stop != "tool_use" ==> AllAnswered(session.log.events)
      ensures providerCalls - 1 == LastCall(script, policy, old(providerCalls), 1)
      ensures HasTerminal(session.log.events) ==> old(HasTerminal(session.log.events))
      ensures TurnOutcome(script.provider(providerCalls - 1), |old(session.log.events)|, stop, session.log.events)
    {
      hide Reached, Once, Inv, FreshIds, ScriptOk, LatestResults, HasTerminal, AllAnswered, AfterCalls, ClosedTurn;
      hide LastCall;
      hide Asked, TurnOutcome, SameTools, RetryPolicy.Valid, IsResult;
      ghost var w0 := session.World();
      ghost var first := providerCalls;
      var turnStart := |session.log.events|;
      var ok := CallProvider(request);
      ghost var w1 := session.World();
      if !ok {
        if old(AllAnswered(session.log.events)) {
          AllAnsweredStays(old(session.log.events), session.log.events);
        }
        FailedTurn(script.provider(providerCalls - 1), turnStart, session.log.events);
        return "provider_failed";
      }
      assert session.log.events[..turnStart] == old(session.log.events);
      stop := CloseTurn(turnStart);
      ReachedTransitive(w0, w1, session.World());
      TurnHasOutcome(script, first, providerCalls - 1, w0.log, w1.log, stop, session.log.events);
    }

    /** A turn: the hooks, the projection, the provider, and the end of the batch. */
    method RunTurn() returns (end: TurnEnd)
      requires Valid()
      modifies `hookCalls, `turns, `providerCalls, `sleptMs, `requests, session.log
      ensures Valid() && Reached(old(session.World()), session.World())
      ensures old(Drained()) ==> Drained()
      ensures AllAsked(old(requests), providerCalls - old(providerCalls), old(AllAnswered(session.log.events)),
                       requests)
      ensures 0 <= providerCalls - old(providerCalls) <= policy.maxAttempts
      ensures old(AllAnswered(session.log.events)) && end != Stopped("tool_use") ==> AllAnswered(session.log.events)
      ensures old(HasTerminal(session.log.events)) ==>
                end in {Abandoned, Stopped("runtime_failed")} && providerCalls == old(providerCalls)
      ensures hookCalls > old(hookCalls)
      ensures end == Abandoned <==> Fatal(script.hooks(hookCalls - 1))
      ensures end == Abandoned ==> providerCalls == old(providerCalls) && HasTerminal(session.log.events)
      ensures providerCalls > old(providerCalls) ==>
                hookCalls == old(hookCalls) + 2 && !Fatal(script.hooks(old(hookCalls))) && !script.mismatch(old(turns))
      ensures StaysCalm(script, old(Now()), old(session.log.events), session.log.events) && Later(old(Now()), Now())
      ensures providerCalls == old(providerCalls) ==>
                HasTerminal(session.log.events) && end in {Abandoned, Stopped("runtime_failed")}
      ensures Calm(script, old(Now())) && !old(HasTerminal(session.log.events)) ==> providerCalls > old(providerCalls)
      ensures scanIndex <= |old(session.log.events)|
      ensures providerCalls > old(providerCalls) ==>
                && turns == old(turns) + 1 && end.Stopped?
                && providerCalls - 1 == LastCall(script, policy, old(providerCalls), 1)
                && SettledTurn(script.provider(providerCalls - 1), old(session.log.events), end.reason,
                               session.log.events)
    {
      hide Reached, Once, Inv, FreshIds, ScriptOk, LatestResults, HasTerminal, AllAnswered, AfterCalls, ClosedTurn;
      hide LastCall;
      hide Asked, AllAsked, WholePairs, TurnOutcome, SameTools, Calm, StaysCalm, Fatal, Apply, Configured;
      hide AfterHandlers;
      ghost var at := Now();
      ghost var w0 := session.World();
      NoneAsked(requests);
      var early, request := PrepareTurn();
      if old(AllAnswered(session.log.events)) {
        AllAnsweredStays(old(session.log.events), session.log.events);
      }
      if early.Some? { return early.value; }
      ghost var w1 := session.World();
      ghost var asked, calls, now := requests, providerCalls, Now();
      var stop := AskProvider(request);
      CalmOnwards(script, at, now, w0.log, w1.log, session.log.events);
      ToolsKept(w0.log, w1.log);
      TurnSettled(script.provider(providerCalls - 1), w0.log, |w1.log|, stop, session.log.events);
      AskedOne(asked, providerCalls - calls, request, requests);
      ReachedTransitive(w0, w1, session.World());
      end := Stopped(stop);
    }

    // ---- Dispatch -------------------------------------------------------------------------------------------

    /** First pass: every hook is asked about every pending call before anything runs. */
    method ComposeDecisions(pending: seq<Payload>) returns (decisions: seq<seq<Decision>>, failed: bool)
      requires Valid()
      modifies `hookCalls, session.log
      ensures Valid() && Reached(old(session.World()), session.World())
      ensures SameTools(old(session.log.events), session.log.events)
      ensures failed <==> AnyFatal(script, old(hookCalls), |pending|)
      ensures failed ==> HasTerminal(session.log.events)
      ensures !failed ==> decisions == DecisionsFrom(script, old(hookCalls), |pending|)
      ensures StaysCalm(script, old(Now()), old(session.log.events), session.log.events) && hookCalls >= old(hookCalls)
    {
      hide Reached, Once, Inv, FreshIds, ScriptOk, LatestResults, HasTerminal, AllAnswered, AfterCalls, ClosedTurn;
      hide LastCall;
      hide SameTools, Calm, StaysCalm, Fatal, AnyFatal, Configured, AfterHandlers, Decisions, DecisionsFrom;
      ghost var at := Now();
      CalmRefl(script, at, session.log.events);
      ghost var w0 := session.World();
      ReachedRefl(w0);
      SameToolsRefl(session.log.events);
      NoneFatal(script, hookCalls);
      decisions := [];
      var i := 0;
      while i < |pending|
        invariant 0 <= i <= |pending| && hookCalls == old(hookCalls) + i
        invariant Valid() && Reached(w0, session.World())
        invariant SameTools(old(session.log.events), session.log.events)
        invariant !AnyFatal(script, old(hookCalls), i)
        invariant decisions == DecisionsFrom(script, old(hookCalls), i)
        invariant StaysCalm(script, at, old(session.log.events), session.log.events)
      {
        ghost var w := session.World();
        ghost var log, now := session.log.events, Now();
        var ds, abandoned := RunHooks();
        MoreHooks(at, now);
        StaysCalmThen(script, at, now, old(session.log.events), log, session.log.events);
        ReachedTransitive(w0, w, session.World());
        SameToolsThen(old(session.log.events), log, session.log.events);
        AnyFatalNext(script, old(hookCalls), i, |pending|);
        if abandoned { return decisions, true; }
        DecisionsNext(script, old(hookCalls), i);
        decisions := decisions + [ds];
        i := i + 1;
      }
      failed := false;
    }

    method ApprovalRequests(pending: seq<Payload>, decisions: seq<seq<Decision>>) returns (requests: seq<Payload>)
      requires |pending| == |decisions| && forall p :: p in pending ==> p.ToolUse?
      ensures requests == Requests(pending, decisions)
    {
      requests := [];
      var i := 0;
      while i < |pending|
        invariant 0 <= i <= |pending| && requests == Requests(pending[..i], decisions[..i])
      {
        assert pending[..i + 1][..i] == pending[..i] && decisions[..i + 1][..i] == decisions[..i];
        if Held(decisions[i]) { requests := requests + [ApprovalRequested(pending[i].id)]; }
        i := i + 1;
      }
      assert pending[..i] == pending && decisions[..i] == decisions;
    }

    method RequestApprovals(requests: seq<Payload>)
      requires Valid() && forall p :: p in requests ==> p.ApprovalRequested?
      modifies session.log
      ensures Valid() && Reached(old(session.World()), session.World())
      ensures session.log.events == AddAll(old(session.log.events), requests)
      ensures SameTools(old(session.log.events), session.log.events)
    {
      ghost var w := session.World();
      AppendEvents(requests);
      ReachedRefl(w);
      NotesReached(w, w, requests);
      ReachedKeepsOnce(w, session.World());
      FreshKept(script, providerCalls, providerCalls, w.log, session.log.events);
      SamePrefix(w.log, session.log.events, scanIndex);
    }

    /** Answers one call, by a refusal or by running it. */
    method AnswerCall(call: Payload, ds: seq<Decision>)
      requires Valid() && runner != null
      requires call.ToolUse? && Called(session.log.events, call.id) && !Answered(session.log.events, call.id)
      modifies `toolCalls, session, session.log, runner
      ensures Valid() && Reached(old(session.World()), session.World())
      ensures session.log.events
           == AddAll(old(session.log.events), Outcome(runner.registry, call, ds, script.tools(old(toolCalls))))
      ensures session.runs == old(session.runs) + RunsOf(runner.registry, [call], [ds])
      ensures Answers(old(session.log.events), session.log.events, {call.id})
      ensures StaysCalm(script, old(Now()), old(session.log.events), session.log.events) && toolCalls >= old(toolCalls)
    {
      hide Reached, Inv, Answers, Appends, StaysCalm;
      CalmAfterOutcome(script, Now(), session.log.events, runner.registry, call, ds);
      ghost var w := session.World();
      ghost var o := script.tools(toolCalls);
      ghost var runs := RunsOf(runner.registry, [call], [ds]);
      OutcomeReached(w, runner.registry, call, ds, o);
      OneRun(runner.registry, call, ds);
      if Refused(ds) {
        var result := ToolResult(call.id, Some(Null), Some("denied by hook: " + FirstReason(ds)));
        var _ := session.log.Append(result);
        assert [result][..0] == [];
        assert w.runs + runs == w.runs;
      } else {
        var outcome := script.tools(toolCalls);
        toolCalls := toolCalls + 1;
        runner.Run(Overridden(call, ds), session, outcome);
      }
      assert session.World() == World(AddAll(w.log, Outcome(runner.registry, call, ds, o)), w.runs + runs);
      FreshKept(script, providerCalls, providerCalls, w.log, session.log.events);
      SamePrefix(w.log, session.log.events, scanIndex);
    }

    /** Second pass, one call: its answer, the scan of it, and the hooks after it. */
    method DispatchOne(call: Payload, ds: seq<Decision>) returns (failed: bool)
      requires Valid() && runner != null
      requires call.ToolUse? && Called(session.log.events, call.id) && !Answered(session.log.events, call.id)
      modifies `toolCalls, `hookCalls, `scanIndex, `fulfilled, `latest, session, session.log, runner
      ensures Valid() && Reached(old(session.World()), session.World())
      ensures AddAll(old(session.log.events), Outcome(runner.registry, call, ds, script.tools(old(toolCalls))))
           <= session.log.events
      ensures session.runs == old(session.runs) + RunsOf(runner.registry, [call], [ds])
      ensures Answers(old(session.log.events), session.log.events, {call.id})
      ensures old(fulfilled) + {call.id} <= fulfilled
      ensures failed <==> Fatal(script.hooks(old(hookCalls)))
      ensures failed ==> HasTerminal(session.log.events)
      ensures StaysCalm(script, old(Now()), old(session.log.events), session.log.events) && Later(old(Now()), Now())
    {
      hide AddAll, Outcome, RunsOf, LatestResults, Inv, Reached, FreshIds, ScriptOk, StaysCalm;
      ghost var at := Now();
      ghost var w0 := session.World();
      AnswerCall(call, ds);
      ghost var w1 := session.World();
      RememberNewToolResults();
      LatestHasAnswer(w1, call.id);
      assert w1.log[..scanIndex] == w1.log;
      var result := latest[Printed(call.id)];
      assert result.payload.ToolResult? && result.payload.toolUseId == call.id;
      ghost var now := Now();
      var decisions, abandoned := RunHooks();
      failed := abandoned;
      StaysCalmThen(script, at, now, w0.log, w1.log, session.log.events);
      ReachedTransitive(w0, w1, session.World());
      AnswersThenQuiet(w0.log, w1.log, session.log.events, {call.id});
    }

    /** Second pass: every call of the batch in order, until a hook abandons the turn. */
    method DispatchBatch(pending: seq<Payload>, decisions: seq<seq<Decision>>) returns (failed: bool)
      requires Valid() && runner != null
      requires |pending| == |decisions| && OpenBatch(session.log.events, pending)
      modifies `toolCalls, `hookCalls, `scanIndex, `fulfilled, `latest, session, session.log, runner
      ensures Valid() && Reached(old(session.World()), session.World())
      ensures Ran(runner.registry, pending, decisions, old(session.World()), session.World(), failed)
      ensures !failed ==> old(fulfilled) + Ids(pending) <= fulfilled
      ensures failed ==> HasTerminal(session.log.events)
      ensures StaysCalm(script, old(Now()), old(session.log.events), session.log.events) && Later(old(Now()), Now())
      ensures Calm(script, old(Now())) ==> !failed
    {
      hide AddAll, Outcome, RunsOf, StaysCalm, Calm;
      ghost var at := Now();
      CalmRefl(script, at, session.log.events);
      ghost var w0 := session.World();
      ReachedRefl(w0);
      BatchStart(runner.registry, w0);
      var i := 0;
      while i < |pending|
        invariant 0 <= i <= |pending|
        invariant Valid() && Reached(w0, session.World())
        invariant RanUntil(runner.registry, pending, decisions, w0, session.World(), i)
        invariant old(fulfilled) + Ids(pending[..i]) <= fulfilled
        invariant StaysCalm(script, at, w0.log, session.log.events) && Later(at, Now())
      {
        ghost var w := session.World();
        ghost var now := Now();
        assert pending[i] in pending;
        IdsNext(pending, i);
        AnswersOthers(w0.log, w.log, Ids(pending[..i]), pending[i].id);
        ghost var o := script.tools(toolCalls);
        failed := DispatchOne(pending[i], decisions[i]);
        OutcomeEnds(runner.registry, pending[i], decisions[i], o, w.log, session.log.events);
        StaysCalmThen(script, at, now, w0.log, w.log, session.log.events);
        CalmNotFatal(script, at, now.hooks);
        ReachedTransitive(w0, w, session.World());
        RanNext(runner.registry, pending, decisions, w0, w, session.World(), i);
        i := i + 1;
        if failed { return; }
      }
      assert pending[..i] == pending;
      failed := false;
    }

    /**
      Two passes. A fatal hook in the first pass, or a held call, and nothing of the batch runs; otherwise
      the batch is answered in order. A null runner dispatches nothing.
      */
    method DispatchPendingTools() returns (pending: seq<Payload>, awaiting: bool, failed: bool)
      requires Valid()
      modifies `toolCalls, `hookCalls, `scanIndex, `fulfilled, `latest, `batches, session, session.log, runner
      ensures batches == old(batches) + [pending]
      ensures StaysCalm(script, old(Now()), old(session.log.events), session.log.events) && Later(old(Now()), Now())
      ensures Calm(script, old(Now())) ==> !failed && !awaiting
      ensures Valid() && Reached(old(session.World()), session.World())
      ensures runner == null ==> pending == [] && !awaiting && !failed
                                 && session.runs == old(session.runs) && session.log.events == old(session.log.events)
      ensures runner != null ==>
                pending == OpenCalls(old(session.log.events)[old(scanIndex)..],
                                     LatestResults(old(session.log.events)).Keys)
      ensures runner != null && old(Drained()) ==> pending == FullScan(old(session.log.events))
      ensures runner != null ==> forall before ::
                old(scanIndex) <= |before| && NewCalls(before, old(session.log.events)) ==> pending != []
      ensures runner != null && AnyFatal(script, old(hookCalls), |pending|) ==>
                failed && !awaiting && session.runs == old(session.runs)
                && SameTools(old(session.log.events), session.log.events)
      ensures runner != null && !AnyFatal(script, old(hookCalls), |pending|) ==>
                && OpenBatch(old(session.log.events), pending)
                && var decisions := DecisionsFrom(script, old(hookCalls), |pending|);
                   if Requests(pending, decisions) != [] then
                     awaiting && !failed && Paused(pending, decisions, old(session.World()), session.World())
                   else
                     && !awaiting
                     && Ran(runner.registry, pending, decisions, old(session.World()), session.World(), failed)
      ensures runner != null && !AnyFatal(script, old(hookCalls), |pending|) ==>
                DecidedByHooks(runner.registry, script, old(hookCalls), pending, old(session.World()), session.World(),
                               awaiting)
      ensures failed ==> HasTerminal(session.log.events)
      ensures awaiting ==> EndsInRequest(session.log.events) && scanIndex == |old(session.log.events)|
      ensures old(Drained()) && runner != null && !awaiting && !failed ==>
                Drained() && AllAnswered(session.log.events)
    {
      hide AddAll, Outcome, RunsOf, LatestResults, Requests, Reached, FreshIds, ScriptOk, Inv, Once, Answers;
      hide DecidedByHooks, HeldAt, Paused, Ran, HasTerminal, AnyFatal, OpenCalls, Fatal, EndsInRequest;
      hide StaysCalm, Calm, FullScan, AllAnswered, OpenBatch, NewCalls;
      ghost var w0 := session.World();
      ReachedRefl(w0);
      ghost var at := Now();
      CalmRefl(script, at, session.log.events);
      if runner == null {
        batches := batches + [[]];
        return [], false, false;
      }
      ghost var from := scanIndex;
      pending := PendingToolUses();
      PendingOpen(w0, from);
      NewCallsFound(w0, from, pending);
      ghost var drained := old(Drained());
      ghost var known := fulfilled;
      assert w0.log[..scanIndex] == w0.log;
      batches := batches + [pending];
      CalmBatch(script, at, |pending|);
      var decisions, abandoned := ComposeDecisions(pending);
      if abandoned { return pending, false, true; }
      ghost var now := Now();
      ghost var w1 := session.World();
      BatchCalls(w0.log, pending);
      var requests := ApprovalRequests(pending, decisions);
      if requests != [] {
        RequestApprovals(requests);
        RequestsAtEnd(w1.log, requests);
        ReachedTransitive(w0, w1, session.World());
        SameToolsThen(w0.log, w1.log, session.log.events);
        PausedBatch(pending, decisions, w0, w1.log, session.World());
        HooksDecided(runner.registry, script, at.hooks, pending, w0, session.World(), true, false);
        CalmAfterRequests(script, at, w0.log, w1.log, requests);
        return pending, true, false;
      }
      OpenBatchStays(w0.log, w1.log, pending);
      failed := DispatchBatch(pending, decisions);
      MoreHooks(at, now);
      CalmLaterIf(script, at, now);
      StaysCalmThen(script, at, now, w0.log, w1.log, session.log.events);
      ReachedTransitive(w0, w1, session.World());
      RanAfterQuiet(runner.registry, pending, decisions, w0, w1, session.World(), failed);
      awaiting := false;
      HooksDecided(runner.registry, script, at.hooks, pending, w0, session.World(), false, failed);
      if drained && !failed {
        NoneLeft(runner.registry, decisions, w0, session.World());
        DrainedAfter(w0, session.log.events, scanIndex, known, fulfilled, pending);
      }
    }

    // ---- The run --------------------------------------------------------------------------------------------

    /** One turn of the run: a reply, and its calls dispatched; a reason ends the run. */
    method TakeTurn() returns (over: Option<string>)
      requires Valid()
      modifies `toolCalls, `hookCalls, `turns, `providerCalls, `sleptMs, `requests, `batches
      modifies `scanIndex, `fulfilled, `latest, session, session.log, runner
      ensures Valid() && Reached(old(session.World()), session.World())
      ensures AllAsked(old(requests), providerCalls - old(providerCalls), old(AllAnswered(session.log.events)),
                       requests)
      ensures 0 <= providerCalls - old(providerCalls) <= policy.maxAttempts
      ensures runner != null && old(Drained()) ==>
                && (over.None? ==> AllAnswered(session.log.events))
                && (&& old(AllAnswered(session.log.events))
                    && over != Some("awaiting_approval") && over != Some("runtime_failed")
                    ==> AllAnswered(session.log.events))
                && (over != Some("awaiting_approval") && over != Some("runtime_failed") ==> Drained())
      ensures over == Some("awaiting_approval") ==> EndsInRequest(session.log.events)
      ensures old(HasTerminal(session.log.events)) ==>
                over == Some("runtime_failed") && providerCalls == old(providerCalls)
                && session.runs == old(session.runs)
      ensures runner == null ==> session.runs == old(session.runs)
      ensures over.None? ==> turns == old(turns) + 1 && !HasTerminal(session.log.events)
                             && providerCalls - 1 == LastCall(script, policy, old(providerCalls), 1)
                             && AllBatches(old(batches), 1, batches)
      ensures over.Some? ==> EndedAs(over.value, script, providerCalls - old(providerCalls), providerCalls - 1,
                                     turns - old(turns), old(batches), batches, session.log.events)
      ensures StaysCalm(script, old(Now()), old(session.log.events), session.log.events) && Later(old(Now()), Now())
      ensures runner != null && Calm(script, old(Now())) && !old(HasTerminal(session.log.events)) ==>
                && providerCalls - 1 == LastCall(script, policy, old(providerCalls), 1)
                && (AsksForTools(script.provider(providerCalls - 1)) ==> over.None?)
                && (EndsTheTurn(script.provider(providerCalls - 1)) ==> over == Some("end_turn"))
    {
      hide *;
      ghost var w0, at, log0, calls, batches0 := session.World(), Now(), session.log.events, providerCalls, batches;
      NoBatch(batches);
      var end := RunTurn();
      EndsAs(script, providerCalls - calls, providerCalls - 1, turns - old(turns), batches0, batches,
             session.log.events);
      if end == Abandoned { return Some("runtime_failed"); }
      var stop := end.reason;
      ghost var last := script.provider(if providerCalls > calls then providerCalls - 1 else 0);
      if providerCalls > calls { ReplyDecides(last, log0, stop, session.log.events); }
      if stop in {"provider_failed", "runtime_failed", "incomplete_tool_batch"} {
        StoppedAs(stop, script, providerCalls - calls, providerCalls - 1, turns - old(turns), batches,
                  session.log.events);
        return Some(stop);
      }
      if stop != "tool_use" {
        StoppedAs("end_turn", script, providerCalls - calls, providerCalls - 1, turns - old(turns), batches,
                  session.log.events);
        return Some("end_turn");
      }
      ghost var w1, now, log1 := session.World(), Now(), session.log.events;
      var pending, awaiting, failed := DispatchPendingTools();
      RunTurnCalm(script, at, now, Now(), log0, log1, session.log.events);
      ReachedTransitive(w0, w1, session.World());
      EndsAs(script, providerCalls - calls, providerCalls - 1, turns - old(turns), batches0, batches,
             session.log.events);
      if failed { return Some("runtime_failed"); }
      if awaiting { return Some("awaiting_approval"); }
      var terminal := TerminalRuntimeError();
      if terminal { return Some("runtime_failed"); }
      if pending == [] { return Some("no_pending_tools"); }
      OneBatch(batches0, 0, batches0, pending);
      over := None;
    }

    /** Turns until one ends the run. */
    method Run() returns (reason: string)
      requires Valid()
      modifies `toolCalls, `hookCalls, `turns, `providerCalls, `sleptMs, `requests, `batches
      modifies `scanIndex, `fulfilled, `latest, session, session.log, runner
      ensures AllAsked(old(requests), providerCalls - old(providerCalls),
                       runner != null && old(Drained()) && old(AllAnswered(session.log.events)), requests)
      ensures Valid() && Reached(old(session.World()), session.World())
      ensures 0 <= providerCalls - old(providerCalls) <= (if maxTurns > 0 then maxTurns else 0) * policy.maxAttempts
      ensures runner != null && old(Drained()) && old(AllAnswered(session.log.events))
              && reason in {"end_turn", "max_turns_reached", "incomplete_tool_batch", "provider_failed",
                            "no_pending_tools"}
              ==> AllAnswered(session.log.events)
      ensures runner != null && old(Drained()) && reason !in {"awaiting_approval", "runtime_failed"} ==> Drained()
      ensures reason == "awaiting_approval" ==> EndsInRequest(session.log.events)
      ensures maxTurns > 0 && old(HasTerminal(session.log.events)) ==>
                reason == "runtime_failed" && providerCalls == old(providerCalls) && session.runs == old(session.runs)
      ensures maxTurns <= 0 ==> reason == "max_turns_reached" && session.World() == old(session.World())
      ensures runner == null ==> session.runs == old(session.runs)
      ensures reason in {"end_turn", "max_turns_reached", "no_pending_tools", "awaiting_approval",
                         "incomplete_tool_batch", "provider_failed", "runtime_failed"}
      ensures RunEnded(reason, script, old(providerCalls), providerCalls, maxTurns, turns - old(turns), old(batches),
                       batches, session.log.events)
      ensures runner != null && Calm(script, old(Now())) && !old(HasTerminal(session.log.events)) ==>
                GoesThrough(script, policy, old(providerCalls), maxTurns, reason, turns - old(turns), providerCalls)
    {
      hide *;
      ghost var w0, at, batches0, log0 := session.World(), Now(), batches, session.log.events;
      ghost var drained, answered := runner != null && Drained(), AllAnswered(session.log.events);
      ghost var over := HasTerminal(session.log.events);
      reason := "max_turns_reached";
      RunStarts(script, policy, at, providerCalls, log0, batches);
      ReachedRefl(w0);
      NoneAsked(requests);
      var turn := 0;
      while turn < maxTurns
        invariant 0 <= turn && (turn <= maxTurns || turn == 0)
        invariant Valid() && Reached(w0, session.World())
        invariant 0 <= providerCalls - old(providerCalls) <= turn * policy.maxAttempts
        invariant AllAsked(old(requests), providerCalls - old(providerCalls), drained && answered, requests)
        invariant drained ==> Drained()
        invariant drained && (answered || turn > 0) ==> AllAnswered(session.log.events)
        invariant over ==> turn == 0 && providerCalls == old(providerCalls)
        invariant turn == 0 ==> session.World() == w0 && HasTerminal(session.log.events) == over
        invariant turn == 0 || runner == null ==> session.runs == old(session.runs)
        invariant turns == old(turns) + turn && AllBatches(batches0, turn, batches)
        invariant providerCalls == TurnCall(script, policy, old(providerCalls), turn)
        invariant StaysCalm(script, at, log0, session.log.events) && Later(at, Now())
        invariant runner != null && Calm(script, at) && !over ==>
                    GoesFurther(script, policy, old(providerCalls), maxTurns, turn)
      {
        ghost var w, now, log1 := session.World(), Now(), session.log.events;
        ghost var asked, calls, batches1 := requests, providerCalls, batches;
        ghost var whole := AllAnswered(session.log.events);
        var ended := TakeTurn();
        AskedMore(old(requests), calls - old(providerCalls), asked, providerCalls - calls, requests,
                  drained && answered, whole);
        ReachedTransitive(w0, w, session.World());
        OneTurnMore(turn, maxTurns, policy.maxAttempts);
        RunTurnCalm(script, at, now, Now(), log0, log1, session.log.events);
        NextTurnCall(script, policy, old(providerCalls), turn);
        if ended.Some? {
          EndedRun(ended.value, script, old(providerCalls), calls, providerCalls, maxTurns, turn,
                   turns - old(turns) - turn, batches0, batches1, batches, session.log.events);
          if runner != null && Calm(script, at) && !over {
            LastTurn(script, policy, old(providerCalls), maxTurns, turn, ended.value, turns - old(turns),
                     providerCalls);
          }
          return ended.value;
        }
        MoreBatches(batches0, turn, batches1, batches);
        OneTurnFurther(script, policy, old(providerCalls), maxTurns, turn);
        turn := turn + 1;
      }
      NoTurnLeft(script, policy, old(providerCalls), maxTurns, turn);
      OutOfTurns(script, old(providerCalls), providerCalls, maxTurns, turn, batches0, batches, session.log.events);
    }
  }
}
