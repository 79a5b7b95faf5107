/** What lets the agent loop go on: replies that stop in tool_use with calls, and nothing that fails or holds. */
module Progress {
  import opened Events
  import opened Mutations
  import opened Strategies
  import opened LogHistory
  import opened AgentHistory
  import opened SessionState
  import opened Hooks
  import opened ToolRunner
  import opened RetryPolicies
  import opened LoopSpecs
  import opened DispatchLaws
  import opened Compaction
  import CapLaws

  // ---- Calm scripts --------------------------------------------------------------------------------------

  /** No handler fails the turn, holds a call, or logs a terminal error itself. */
  predicate CalmHandlers(hs: seq<Handler>) {
    forall i :: 0 <= i < |hs| ==>
      && !(hs[i].raises && hs[i].failTurn)
      && Note(RuntimeError(true)) !in hs[i].effects
      && (hs[i].raises || hs[i].decision.None? || !hs[i].decision.value.holds)
  }

  /** From these occasions on, hooks are calm, tools log no terminal error, and every projection succeeds. */
  ghost predicate Calm(s: Script, at: Occasions) {
    && (forall n: nat :: n >= at.hooks ==> CalmHandlers(s.hooks(n)))
    && (forall n: nat :: n >= at.tools ==> RuntimeError(true) !in s.tools(n).notes)
    && (forall n: nat :: n >= at.turns ==> !s.mismatch(n))
  }

  ghost predicate Later(a: Occasions, b: Occasions) {
    a.hooks <= b.hooks && a.provider <= b.provider && a.tools <= b.tools && a.turns <= b.turns
  }

  lemma CalmLater(s: Script, a: Occasions, b: Occasions)
    requires Calm(s, a) && Later(a, b)
    ensures Calm(s, b)
  {
  }

  /** On a calm script, a part of the loop that started at these occasions leaves no new terminal error. */
  ghost predicate StaysCalm(s: Script, at: Occasions, before: seq<Event>, after: seq<Event>) {
    Calm(s, at) && !HasTerminal(before) ==> !HasTerminal(after)
  }

  lemma StaysCalmThen(s: Script, a: Occasions, b: Occasions, x: seq<Event>, y: seq<Event>, z: seq<Event>)
    requires StaysCalm(s, a, x, y) && StaysCalm(s, b, y, z) && Later(a, b)
    ensures StaysCalm(s, a, x, z)
  {
  }

  lemma ToolsKept(a: seq<Event>, b: seq<Event>)
    requires SameTools(a, b)
    ensures a <= b
  {
  }

  lemma NotCalm(s: Script, at: Occasions, before: seq<Event>, after: seq<Event>)
    requires !Calm(s, at)
    ensures StaysCalm(s, at, before, after)
  {
  }

  lemma CalmRefl(s: Script, at: Occasions, log: seq<Event>)
    ensures StaysCalm(s, at, log, log)
  {
  }

  lemma MoreHooks(a: Occasions, b: Occasions)
    requires b == a.(hooks := b.hooks) && a.hooks <= b.hooks
    ensures Later(a, b)
  {
  }

  lemma CalmLaterIf(s: Script, a: Occasions, b: Occasions)
    requires Later(a, b)
    ensures Calm(s, a) ==> Calm(s, b)
  {
  }

  lemma CalmNotFatal(s: Script, at: Occasions, n: nat)
    requires n >= at.hooks
    ensures Calm(s, at) ==> !Fatal(s.hooks(n))
  {
  }

  lemma CalmAfterHook(s: Script, at: Occasions, log: seq<Event>, n: nat)
    requires n == at.hooks && Configured(s.hooks(n))
    ensures StaysCalm(s, at, log, AfterHandlers(log, s.hooks(n)))
  {
    if Calm(s, at) { CalmHooksTerminal(log, s.hooks(n)); }
  }

  lemma CalmUses(s: Script, at: Occasions, log: seq<Event>)
    ensures Calm(s, at) ==> !Fatal(s.hooks(at.hooks)) && !Fatal(s.hooks(at.hooks + 1)) && !s.mismatch(at.turns)
    ensures forall after :: StaysCalm(s, at, log, after) && Calm(s, at) && !HasTerminal(log) ==> !HasTerminal(after)
  {
  }

  /** A calm batch is neither abandoned nor held up. */
  lemma CalmBatch(s: Script, at: Occasions, n: nat)
    ensures Calm(s, at) ==> !AnyFatal(s, at.hooks, n) && forall j: nat :: !HeldAt(s, at.hooks, j)
  {
    if Calm(s, at) {
      forall k: nat | k >= at.hooks ensures !Fatal(s.hooks(k)) && !SomeHolds(s.hooks(k)) {
        CalmHook(s, at, k);
      }
    }
  }

  lemma CalmAfterRequests(s: Script, at: Occasions, log: seq<Event>, mid: seq<Event>, requests: seq<Payload>)
    requires StaysCalm(s, at, log, mid) && forall p :: p in requests ==> p.ApprovalRequested?
    ensures StaysCalm(s, at, log, AddAll(mid, requests))
  {
    PayloadsTerminal(mid, requests);
  }

  lemma CalmAfterOutcome(
    s: Script, at: Occasions, log: seq<Event>, registry: map<string, ToolKind>, call: Payload, ds: seq<Decision>)
    requires call.ToolUse?
    ensures StaysCalm(s, at, log, AddAll(log, Outcome(registry, call, ds, s.tools(at.tools))))
  {
    hide HasTerminal, Outcome;
    if Calm(s, at) {
      OutcomeTerminal(registry, call, ds, s.tools(at.tools));
      PayloadsTerminal(log, Outcome(registry, call, ds, s.tools(at.tools)));
    }
  }

  /** A part that adds no terminal error at all. */
  lemma CalmOnwards(s: Script, a: Occasions, b: Occasions, x: seq<Event>, y: seq<Event>, z: seq<Event>)
    requires StaysCalm(s, a, x, y) && (HasTerminal(z) ==> HasTerminal(y))
    ensures StaysCalm(s, a, x, z)
  {
  }

  lemma CalmHook(s: Script, at: Occasions, n: nat)
    requires Calm(s, at) && n >= at.hooks
    ensures CalmHandlers(s.hooks(n)) && !Fatal(s.hooks(n)) && !SomeHolds(s.hooks(n))
  {
  }

  lemma {:induction false} PayloadsTerminal(log: seq<Event>, ps: seq<Payload>)
    ensures HasTerminal(AddAll(log, ps)) <==> HasTerminal(log) || RuntimeError(true) in ps
  {
    if ps != [] {
      var init, p := ps[..|ps| - 1], ps[|ps| - 1];
      PayloadsTerminal(log, init);
      PayloadTerminal(AddAll(log, init), p);
      assert ps == init + [p];
    }
  }

  lemma PayloadTerminal(log: seq<Event>, p: Payload)
    ensures HasTerminal(Add(log, p)) <==> HasTerminal(log) || p == RuntimeError(true)
  {
    var last := Event(|log|, p);
    assert last in Add(log, p) && forall e :: e in log ==> e in Add(log, p);
  }

  lemma CompactsNotTerminal(log: seq<Event>, to: seq<Event>)
    requires log <= to && forall k :: |log| <= k < |to| ==> to[k].payload.Compact?
    ensures HasTerminal(to) ==> HasTerminal(log)
  {
    if e :| e in to && e.payload == RuntimeError(true) {
      var k :| 0 <= k < |to| && to[k] == e;
      assert log[k] == e;
    }
  }

  lemma DoTerminal(log: seq<Event>, step: Step)
    requires WellConfigured(step) && step != Note(RuntimeError(true))
    ensures HasTerminal(Do(log, step)) ==> HasTerminal(log)
  {
    hide HasTerminal, Apply, TailHides;
    match step {
      case Note(p) => PayloadTerminal(log, p);
      case Call(id, name, args) => PayloadTerminal(log, ToolUse(id, name, args));
      case Answer(id, output, error) => PayloadTerminal(log, ToolResult(id, output, error));
      case Undo(n) => PayloadTerminal(log, Revert(n));
      case RunMarkerTail(s) => CompactsNotTerminal(log, Do(log, step));
      case RunTokenMarkerTail(s) => CompactsNotTerminal(log, Do(log, step));
      case RunToolOutputCap(s) =>
        if Apply(log).Success? {
          CapLaws.WalkAppends(s, log, UseNums(log), Apply(log).value);
          CompactsNotTerminal(log, Do(log, step));
        }
    }
  }

  lemma {:induction false} EffectsTerminal(log: seq<Event>, steps: seq<Step>)
    requires (forall s :: s in steps ==> WellConfigured(s)) && Note(RuntimeError(true)) !in steps
    ensures HasTerminal(DoAll(log, steps)) ==> HasTerminal(log)
  {
    hide HasTerminal, Do;
    if steps != [] {
      var init, step := steps[..|steps| - 1], steps[|steps| - 1];
      EffectsTerminal(log, init);
      DoTerminal(DoAll(log, init), step);
    }
  }

  /** Calm handlers leave no terminal error behind. */
  lemma {:induction false} CalmHooksTerminal(log: seq<Event>, hs: seq<Handler>)
    requires Configured(hs) && CalmHandlers(hs)
    ensures HasTerminal(AfterHandlers(log, hs)) ==> HasTerminal(log)
  {
    hide HasTerminal, DoAll;
    if hs != [] {
      var n := |hs| - 1;
      assert forall h :: h in hs[..n] ==> h in hs;
      assert forall i :: 0 <= i < n ==> hs[..n][i] == hs[i];
      CalmHooksTerminal(log, hs[..n]);
      assert hs[n] in hs;
      EffectsTerminal(AfterHandlers(log, hs[..n]), hs[n].effects);
    }
  }

  lemma OutcomeTerminal(registry: map<string, ToolKind>, call: Payload, ds: seq<Decision>, o: ToolOutcome)
    requires call.ToolUse? && RuntimeError(true) !in o.notes
    ensures RuntimeError(true) !in Outcome(registry, call, ds, o)
  {
  }

  lemma {:induction false} ErrorsNotTerminal(n: nat, failed: bool)
    ensures RuntimeError(true) !in ProviderErrors(n, failed)
  {
    if n > 0 { ErrorsNotTerminal(n - 1, false); }
  }

  lemma ProviderTerminal(s: Script, from: nat, last: nat, log: seq<Event>)
    requires ScriptOk(s) && from <= last
    ensures HasTerminal(AfterCalls(s, from, last, log)) ==> HasTerminal(log)
  {
    hide HasTerminal;
    ErrorsNotTerminal(last - from, false);
    ErrorsNotTerminal(last - from + 1, true);
    PayloadsTerminal(log, ProviderErrors(last - from, false));
    PayloadsTerminal(log, ProviderErrors(last - from + 1, true));
    if s.provider(last).Response? {
      assert forall p :: p in s.provider(last).events ==> IngestedPayload(p);
      PayloadsTerminal(AddAll(log, ProviderErrors(last - from, false)), s.provider(last).events);
    }
  }

  lemma ClosedTerminal(log: seq<Event>, turnStart: nat, stop: string, after: seq<Event>)
    requires turnStart <= |log| && ClosedTurn(log, turnStart, stop, after)
    ensures HasTerminal(after) ==> HasTerminal(log)
  {
    hide HasTerminal, OpenCalls, LastStop;
    var calls := OpenCalls(log[turnStart..], {});
    PayloadsTerminal(log, CloseResults(calls, LastStop(log)));
  }

  // ---- Replies -------------------------------------------------------------------------------------------

  /** The last message of a reply has this stop reason. */
  ghost predicate Stops(events: seq<Payload>, stop: string) {
    exists i :: 0 <= i < |events| && events[i].AssistantMessage? && events[i].stopReason == stop
                && forall k :: i < k < |events| ==> !events[k].AssistantMessage?
  }

  predicate HasCalls(events: seq<Payload>) {
    exists p :: p in events && p.ToolUse?
  }

  /** A reply that asks for tools. */
  ghost predicate AsksForTools(r: Reply) {
    r.Response? && Stops(r.events, "tool_use") && HasCalls(r.events)
  }

  /** A reply without calls, and with a stop reason that is none of those the loop itself reports. */
  ghost predicate EndsTheTurn(r: Reply) {
    && r.Response? && !HasCalls(r.events)
    && exists stop :: Stops(r.events, stop)
                      && stop !in {"tool_use", "provider_failed", "runtime_failed", "incomplete_tool_batch"}
  }

  /** The number of a turn's first provider call, when each turn repeats its calls until one is settled. */
  function TurnCall(s: Script, p: RetryPolicy, from: nat, turn: nat): (call: nat)
    ensures call >= from
  {
    if turn == 0 then from else LastCall(s, p, TurnCall(s, p, from, turn - 1), 1) + 1
  }

  /** The reply a turn gets in the end. */
  function TurnReply(s: Script, p: RetryPolicy, from: nat, turn: nat): Reply {
    s.provider(LastCall(s, p, TurnCall(s, p, from, turn), 1))
  }

  /** The first `n` replies ask for tools, and the next one ends the turn. */
  ghost predicate GoesOn(s: Script, p: RetryPolicy, from: nat, n: nat) {
    && (forall t: nat :: t < n ==> AsksForTools(TurnReply(s, p, from, t)))
    && EndsTheTurn(TurnReply(s, p, from, n))
  }

  lemma {:induction false} StopOfReply(log: seq<Event>, ps: seq<Payload>, stop: string)
    requires Stops(ps, stop)
    ensures LastStop(AddAll(log, ps)) == stop
  {
    var n := |ps| - 1;
    var i :| 0 <= i < |ps| && ps[i].AssistantMessage? && ps[i].stopReason == stop
             && forall k :: i < k < |ps| ==> !ps[k].AssistantMessage?;
    var before := AddAll(log, ps[..n]);
    assert AddAll(log, ps)[..|before|] == before;
    if i < n {
      assert ps[..n][i] == ps[i] && forall k :: i < k < n ==> ps[..n][k] == ps[k];
      StopOfReply(log, ps[..n], stop);
    }
  }

  lemma {:induction false} CallsOfReply(log: seq<Event>, ps: seq<Payload>)
    ensures OpenCalls(AddAll(log, ps)[|log|..], {}) != [] <==> HasCalls(ps)
  {
    hide OpenCalls;
    if ps == [] {
      assert AddAll(log, ps)[|log|..] == [];
      NothingScanned();
    } else {
      var init, p := ps[..|ps| - 1], ps[|ps| - 1];
      CallsOfReply(log, init);
      var before, to := AddAll(log, init), AddAll(log, ps);
      assert to[|log|..] == before[|log|..] + [Event(|before|, p)];
      OneMoreOpen(before[|log|..], Event(|before|, p));
      assert ps == init + [p];
    }
  }

  lemma OneMoreOpen(events: seq<Event>, e: Event)
    ensures OpenCalls(events + [e], {}) == OpenCalls(events, {}) + (if e.payload.ToolUse? then [e.payload] else [])
  {
    assert (events + [e])[..|events|] == events;
  }

  /** A turn with these replies ends with the last message's stop, unless it made calls it must not run. */
  lemma ReplyEndsTurn(s: Script, from: nat, last: nat, log: seq<Event>, stop: string, after: seq<Event>)
    requires ScriptOk(s) && from <= last && s.provider(last).Response?
    requires var mid := AfterCalls(s, from, last, log); ClosedTurn(mid, |log|, stop, after)
    ensures AsksForTools(s.provider(last)) ==>
              && stop == "tool_use" && after == AfterCalls(s, from, last, log) && OpenCalls(after[|log|..], {}) != []
    ensures EndsTheTurn(s.provider(last)) ==>
              stop !in {"tool_use", "provider_failed", "runtime_failed", "incomplete_tool_batch"}
  {
    hide OpenCalls, LastStop, Stops, HasCalls;
    var events, errors := s.provider(last).events, ProviderErrors(last - from, false);
    var failed := AddAll(log, errors);
    var mid := AddAll(failed, events);
    if st :| Stops(events, st) { StopOfReply(failed, events, st); }
    if Stops(events, "tool_use") { StopOfReply(failed, events, "tool_use"); }
    AddAllConcat(log, errors, events);
    CallsOfReply(log, errors + events);
    CallsOfBoth(errors, events);
    var others := {"tool_use", "provider_failed", "runtime_failed", "incomplete_tool_batch"};
    if exists st :: Stops(events, st) && st !in others {
      var st :| Stops(events, st) && st !in others;
      StopOfReply(failed, events, st);
    }
  }

  lemma CallsOfBoth(errors: seq<Payload>, events: seq<Payload>)
    requires forall p :: p in errors ==> p.ProviderError?
    ensures HasCalls(errors + events) <==> HasCalls(events)
  {
    if HasCalls(events) {
      var p :| p in events && p.ToolUse?;
      assert p in errors + events;
    }
  }

  /** A call logged since the scan, and still open, is among the pending ones. */
  lemma NewCallPending(w: World, from: nat, scan: nat, pending: seq<Payload>)
    requires Once(w) && scan <= from <= |w.log|
    requires pending == OpenCalls(w.log[scan..], LatestResults(w.log).Keys)
    requires forall j, id :: IsResult(w.log, j, id) ==> j < from
    requires OpenCalls(w.log[from..], {}) != []
    ensures pending != []
  {
    hide OpenCalls, LatestResults, Once;
    var news := w.log[from..];
    TurnCallsOpen(w, from);
    OpenCallsMembers(news, {});
    var calls := OpenCalls(news, {});
    assert calls[0] in calls;
    var e :| e in news && e.payload == calls[0];
    var i :| 0 <= i < |news| && news[i] == e;
    ProperKeys(w);
    OpenCallsMembers(w.log[scan..], LatestResults(w.log).Keys);
    assert w.log[scan..][from - scan + i] == e;
    assert e in w.log[scan..];
    assert calls[0] in pending;
  }

  /** New calls are open, and every result is older than they are. */
  ghost predicate AskedForTools(from: nat, log: seq<Event>) {
    from <= |log| && OpenCalls(log[from..], {}) != [] && forall j, id :: IsResult(log, j, id) ==> j < from
  }

  ghost predicate NewCalls(before: seq<Event>, log: seq<Event>) {
    exists from :: |before| <= from && AskedForTools(from, log)
  }

  lemma NewCallsPending(w: World, before: seq<Event>, scan: nat, pending: seq<Payload>)
    requires Once(w) && scan <= |before| && NewCalls(before, w.log)
    requires scan <= |w.log| && pending == OpenCalls(w.log[scan..], LatestResults(w.log).Keys)
    ensures pending != []
  {
    hide OpenCalls, LatestResults, Once;
    var from :| |before| <= from && AskedForTools(from, w.log);
    NewCallPending(w, from, scan, pending);
  }

  /** What a settled reply makes of the turn that began at `from`. */
  ghost predicate TurnOutcome(r: Reply, from: nat, stop: string, log: seq<Event>) {
    && (AsksForTools(r) ==> stop == "tool_use" && AskedForTools(from, log))
    && (EndsTheTurn(r) ==> stop !in {"tool_use", "provider_failed", "runtime_failed", "incomplete_tool_batch"})
    && match r
       case Error(_) => stop == "provider_failed"
       case Response(_) =>
         stop == LastStop(log)
         || (stop == "incomplete_tool_batch" && LastStop(log) != "tool_use"
             && log != [] && log[|log| - 1].payload.ToolResult?)
  }

  ghost predicate SettledTurn(r: Reply, before: seq<Event>, stop: string, log: seq<Event>) {
    exists from: nat :: TurnFrom(r, before, from, stop, log)
  }

  ghost predicate TurnFrom(r: Reply, before: seq<Event>, from: nat, stop: string, log: seq<Event>) {
    |before| <= from && TurnOutcome(r, from, stop, log)
  }

  lemma TurnSettled(r: Reply, before: seq<Event>, from: nat, stop: string, log: seq<Event>)
    requires |before| <= from && TurnOutcome(r, from, stop, log)
    ensures SettledTurn(r, before, stop, log)
  {
    assert TurnFrom(r, before, from, stop, log);
  }

  lemma FailedTurn(r: Reply, from: nat, log: seq<Event>)
    requires r.Error?
    ensures TurnOutcome(r, from, "provider_failed", log)
  {
  }

  lemma TurnHasOutcome(
    s: Script, first: nat, last: nat, log: seq<Event>, mid: seq<Event>, stop: string, to: seq<Event>)
    requires ScriptOk(s) && first <= last && s.provider(last).Response?
    requires mid == AfterCalls(s, first, last, log) && ClosedTurn(mid, |log|, stop, to)
    requires forall j, id :: IsResult(mid, j, id) ==> j < |log|
    ensures TurnOutcome(s.provider(last), |log|, stop, to)
  {
    hide AfterCalls, AsksForTools, EndsTheTurn, LastStop, OpenCalls, ScriptOk, CloseResults;
    ReplyEndsTurn(s, first, last, log, stop, to);
    var calls := OpenCalls(mid[|log|..], {});
    if calls != [] && LastStop(mid) != "tool_use" { ResultsKeepStop(mid, CloseResults(calls, LastStop(mid))); }
  }

  lemma {:induction false} ResultsKeepStop(log: seq<Event>, ps: seq<Payload>)
    requires forall p :: p in ps ==> p.ToolResult?
    ensures LastStop(AddAll(log, ps)) == LastStop(log)
    ensures ps != [] ==> AddAll(log, ps)[|log| + |ps| - 1].payload.ToolResult?
  {
    if ps != [] {
      var n := |ps| - 1;
      var before := AddAll(log, ps[..n]);
      assert AddAll(log, ps)[..|before|] == before && ps[n] in ps;
      ResultsKeepStop(log, ps[..n]);
    }
  }

  // ---- How a run can end ---------------------------------------------------------------------------------

  /** The batches dispatched since, none of them empty. */
  ghost predicate AllBatches(before: seq<seq<Payload>>, n: int, after: seq<seq<Payload>>) {
    n >= 0 && before <= after && |after| == |before| + n && forall k :: |before| <= k < |after| ==> after[k] != []
  }

  lemma OneBatch(before: seq<seq<Payload>>, n: int, mid: seq<seq<Payload>>, pending: seq<Payload>)
    requires AllBatches(before, n, mid) && pending != []
    ensures AllBatches(before, n + 1, mid + [pending])
  {
  }

  lemma NoBatch(before: seq<seq<Payload>>)
    ensures AllBatches(before, 0, before)
  {
  }

  lemma NewCallsFound(w: World, scan: nat, pending: seq<Payload>)
    requires Once(w) && scan <= |w.log| && pending == OpenCalls(w.log[scan..], LatestResults(w.log).Keys)
    ensures forall before :: scan <= |before| && NewCalls(before, w.log) ==> pending != []
  {
    forall before | scan <= |before| && NewCalls(before, w.log) ensures pending != [] {
      NewCallsPending(w, before, scan, pending);
    }
  }

  lemma LaterRefl(at: Occasions)
    ensures Later(at, at)
  {
  }

  /** A part of the run that began at `b`, in a run that began at `a`. */
  lemma RunTurnCalm(
    s: Script, a: Occasions, b: Occasions, c: Occasions, x: seq<Event>, y: seq<Event>, z: seq<Event>)
    requires StaysCalm(s, a, x, y) && StaysCalm(s, b, y, z) && Later(a, b) && Later(b, c)
    ensures StaysCalm(s, a, x, z) && Later(a, c)
    ensures Calm(s, a) ==> Calm(s, b)
    ensures Calm(s, a) && !HasTerminal(x) ==> !HasTerminal(y) && !HasTerminal(z)
  {
  }

  lemma FirstTurnCall(s: Script, p: RetryPolicy, from: nat)
    ensures TurnCall(s, p, from, 0) == from
  {
  }

  lemma NextTurnCall(s: Script, p: RetryPolicy, from: nat, turn: nat)
    ensures TurnCall(s, p, from, turn + 1) == LastCall(s, p, TurnCall(s, p, from, turn), 1) + 1
    ensures TurnReply(s, p, from, turn) == s.provider(TurnCall(s, p, from, turn + 1) - 1)
  {
  }

  lemma ReplyDecides(r: Reply, before: seq<Event>, stop: string, log: seq<Event>)
    requires SettledTurn(r, before, stop, log)
    ensures AsksForTools(r) ==> stop == "tool_use" && NewCalls(before, log)
    ensures EndsTheTurn(r) ==> stop !in {"tool_use", "provider_failed", "runtime_failed", "incomplete_tool_batch"}
    ensures r.Error? ==> stop == "provider_failed"
    ensures r.Response? ==> stop == LastStop(log) || (stop == "incomplete_tool_batch" && LastStop(log) != "tool_use")
  {
  }

  lemma GoingOn(s: Script, p: RetryPolicy, from: nat, turn: nat)
    ensures forall n: nat :: GoesOn(s, p, from, n) ==>
              && (turn < n ==> AsksForTools(TurnReply(s, p, from, turn)))
              && (turn == n ==> EndsTheTurn(TurnReply(s, p, from, turn)))
    ensures !(AsksForTools(TurnReply(s, p, from, turn)) && EndsTheTurn(TurnReply(s, p, from, turn)))
  {
  }

  /** What a reason says of the turn that ended the run, its provider calls, its batch and its log. */
  ghost predicate EndedAs(
    reason: string, s: Script, calls: int, last: int, turns: int, before: seq<seq<Payload>>, after: seq<seq<Payload>>,
    log: seq<Event>)
  {
    match reason
    case "no_pending_tools" => turns == 1 && after == before + [[]] && !HasTerminal(log)
    case "end_turn" =>
      && turns == 1 && after == before && calls > 0 && last >= 0 && s.provider(last).Response?
      && LastStop(log) !in {"tool_use", "provider_failed", "runtime_failed", "incomplete_tool_batch"}
    case "provider_failed" =>
      && after == before
      && (LastStop(log) == "provider_failed" || (calls > 0 && last >= 0 && s.provider(last).Error?))
    case "incomplete_tool_batch" => after == before && LastStop(log) != "tool_use"
    case "runtime_failed" => HasTerminal(log) || LastStop(log) == "runtime_failed"
    case "awaiting_approval" => EndsInRequest(log)
    case _ => false
  }

  lemma StoppedAs(
    stop: string, s: Script, calls: int, last: int, turns: int, batches: seq<seq<Payload>>, log: seq<Event>)
    requires stop in {"end_turn", "provider_failed", "runtime_failed", "incomplete_tool_batch"}
    requires calls == 0 ==> stop == "runtime_failed" && HasTerminal(log)
    requires calls > 0 ==>
               && turns == 1 && last >= 0
               && (s.provider(last).Error? ==> stop == "provider_failed")
               && (s.provider(last).Response? ==>
                     if stop == "end_turn" then
                       LastStop(log) !in {"tool_use", "provider_failed", "runtime_failed", "incomplete_tool_batch"}
                     else stop == LastStop(log) || (stop == "incomplete_tool_batch" && LastStop(log) != "tool_use"))
    requires calls >= 0
    ensures EndedAs(stop, s, calls, last, turns, batches, batches, log)
  {
  }

  /** The other three ways. */
  lemma EndsAs(
    s: Script, calls: int, last: int, turns: int, before: seq<seq<Payload>>, after: seq<seq<Payload>>, log: seq<Event>)
    ensures HasTerminal(log) ==> EndedAs("runtime_failed", s, calls, last, turns, before, after, log)
    ensures EndsInRequest(log) ==> EndedAs("awaiting_approval", s, calls, last, turns, before, after, log)
    ensures turns == 1 && after == before + [[]] && !HasTerminal(log) ==>
              EndedAs("no_pending_tools", s, calls, last, turns, before, after, log)
  {
  }

  /**
    How a whole run ended: out of turns after exactly as many as allowed; with nothing pending in the last batch,
    and something in each before; or with a message that asks for no tools. All batches before were not empty.
    */
  ghost predicate RunEnded(
    reason: string, s: Script, first: nat, calls: int, maxTurns: int, turns: int, before: seq<seq<Payload>>,
    after: seq<seq<Payload>>, log: seq<Event>)
  {
    match reason
    case "max_turns_reached" => turns == (if maxTurns > 0 then maxTurns else 0) && AllBatches(before, turns, after)
    case "no_pending_tools" =>
      && after != [] && after[|after| - 1] == [] && AllBatches(before, turns - 1, after[..|after| - 1])
      && !HasTerminal(log)
    case "end_turn" =>
      && calls > first && s.provider(calls - 1).Response?
      && LastStop(log) !in {"tool_use", "provider_failed", "runtime_failed", "incomplete_tool_batch"}
      && AllBatches(before, turns - 1, after)
    case "provider_failed" =>
      LastStop(log) == "provider_failed" || (calls > first && s.provider(calls - 1).Error?)
    case "incomplete_tool_batch" => LastStop(log) != "tool_use"
    case "runtime_failed" => HasTerminal(log) || LastStop(log) == "runtime_failed"
    case "awaiting_approval" => EndsInRequest(log)
    case _ => false
  }

  lemma EndedRun(
    reason: string, s: Script, first: nat, calls: nat, now: nat, maxTurns: int, turn: nat, turns: int,
    batches: seq<seq<Payload>>, mid: seq<seq<Payload>>, after: seq<seq<Payload>>, log: seq<Event>)
    requires first <= calls <= now && AllBatches(batches, turn, mid)
    requires EndedAs(reason, s, now - calls, now - 1, turns, mid, after, log)
    ensures RunEnded(reason, s, first, now, maxTurns, turn + turns, batches, after, log)
    ensures reason != "max_turns_reached" && (reason == "end_turn" ==> turns == 1)
  {
    if reason == "no_pending_tools" { assert after[..|after| - 1] == mid; }
  }

  lemma OutOfTurns(
    s: Script, first: nat, calls: int, maxTurns: int, turn: nat, before: seq<seq<Payload>>, after: seq<seq<Payload>>,
    log: seq<Event>)
    requires turn == (if maxTurns > 0 then maxTurns else 0) && AllBatches(before, turn, after)
    ensures RunEnded("max_turns_reached", s, first, calls, maxTurns, turn, before, after, log)
  {
  }

  /** No run that is to go on ends before this turn. */
  ghost predicate GoesFurther(s: Script, p: RetryPolicy, from: nat, maxTurns: int, turn: nat) {
    forall n: nat :: n < maxTurns && GoesOn(s, p, from, n) ==> turn <= n
  }

  lemma RunStarts(s: Script, p: RetryPolicy, at: Occasions, from: nat, log: seq<Event>, batches: seq<seq<Payload>>)
    ensures AllBatches(batches, 0, batches) && StaysCalm(s, at, log, log) && Later(at, at)
    ensures TurnCall(s, p, from, 0) == from
    ensures forall maxTurns :: GoesFurther(s, p, from, maxTurns, 0)
  {
  }

  lemma OneTurnFurther(s: Script, p: RetryPolicy, from: nat, maxTurns: int, turn: nat)
    ensures GoesFurther(s, p, from, maxTurns, turn) && !EndsTheTurn(TurnReply(s, p, from, turn)) ==>
              GoesFurther(s, p, from, maxTurns, turn + 1)
  {
    GoingOn(s, p, from, turn);
  }

  /**
    If the first `n` replies ask for tools and the next one ends the turn, and there are turns enough, the run ends
    with that reply and after exactly those turns and calls.
    */
  ghost predicate GoesThrough(
    s: Script, p: RetryPolicy, from: nat, maxTurns: int, reason: string, turns: int, calls: nat)
  {
    forall n: nat :: n < maxTurns && GoesOn(s, p, from, n) ==>
      reason == "end_turn" && turns == n + 1 && calls == TurnCall(s, p, from, n + 1)
  }

  lemma LastTurn(
    s: Script, p: RetryPolicy, from: nat, maxTurns: int, turn: nat, reason: string, turns: int, calls: nat)
    requires GoesFurther(s, p, from, maxTurns, turn) && !AsksForTools(TurnReply(s, p, from, turn))
    requires EndsTheTurn(TurnReply(s, p, from, turn)) ==>
               reason == "end_turn" && turns == turn + 1 && calls == TurnCall(s, p, from, turn + 1)
    ensures GoesThrough(s, p, from, maxTurns, reason, turns, calls)
  {
    GoingOn(s, p, from, turn);
  }

  lemma NoTurnLeft(s: Script, p: RetryPolicy, from: nat, maxTurns: int, turn: nat)
    requires turn >= maxTurns
    ensures GoesFurther(s, p, from, maxTurns, turn) ==>
              forall reason, turns, calls :: GoesThrough(s, p, from, maxTurns, reason, turns, calls)
  {
  }

  lemma MoreBatches(a: seq<seq<Payload>>, n: nat, b: seq<seq<Payload>>, c: seq<seq<Payload>>)
    requires AllBatches(a, n, b) && AllBatches(b, 1, c)
    ensures AllBatches(a, n + 1, c)
  {
  }
}
