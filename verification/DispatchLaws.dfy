/** What a dispatched batch does to each call, in terms of what the hooks asked about it returned. */
module DispatchLaws {
  import opened Wrappers
  import opened JsonValues
  import opened Events
  import opened LogHistory
  import opened AgentHistory
  import opened SessionState
  import opened Hooks
  import opened ToolRunner
  import opened LoopSpecs

  // ---- What hooks return ---------------------------------------------------------------------------------

  /** The k-th handler is the first to return a refusal. */
  predicate FirstToRefuse(hs: seq<Handler>, k: int) {
    && 0 <= k < |hs| && !hs[k].raises && hs[k].decision.Some? && hs[k].decision.value.refuses
    && forall i :: 0 <= i < k ==> hs[i].raises || hs[i].decision.None? || !hs[i].decision.value.refuses
  }

  predicate NoneRefuses(hs: seq<Handler>) {
    forall i :: 0 <= i < |hs| ==> hs[i].raises || hs[i].decision.None? || !hs[i].decision.value.refuses
  }

  /** Some handler asks for an approval. */
  predicate SomeHolds(hs: seq<Handler>) {
    exists i :: 0 <= i < |hs| && !hs[i].raises && hs[i].decision.Some? && hs[i].decision.value.holds
  }

  /** The k-th handler is the first to return a dictionary in place of the arguments. */
  predicate FirstToOverride(hs: seq<Handler>, k: int) {
    && 0 <= k < |hs| && Overrides(hs[k])
    && forall i :: 0 <= i < k ==> !Overrides(hs[i])
  }

  predicate Overrides(h: Handler) {
    !h.raises && h.decision.Some? && h.decision.value.arguments.Some? && h.decision.value.arguments.value.Dict?
  }

  /** The reason a refusal gives, when it gives one that is not empty. */
  function ReasonOf(d: Decision): string {
    if d.reason.None? || d.reason.value == "" then "no reason given" else d.reason.value
  }

  lemma {:induction false} DecisionsMembers(hs: seq<Handler>)
    ensures forall d :: d in Decisions(hs) <==> exists i :: 0 <= i < |hs| && !hs[i].raises && hs[i].decision == Some(d)
  {
    if hs != [] {
      var n := |hs| - 1;
      DecisionsMembers(hs[..n]);
      forall d ensures d in Decisions(hs) <==> exists i :: 0 <= i < |hs| && !hs[i].raises && hs[i].decision == Some(d) {
        if i :| 0 <= i < |hs| && !hs[i].raises && hs[i].decision == Some(d) {
          if i < n { assert hs[..n][i] == hs[i]; }
        }
        if d in Decisions(hs[..n]) {
          var i :| 0 <= i < n && !hs[..n][i].raises && hs[..n][i].decision == Some(d);
          assert hs[i] == hs[..n][i];
        }
      }
    }
  }

  lemma RefusedMeans(hs: seq<Handler>)
    ensures Refused(Decisions(hs)) <==> !NoneRefuses(hs)
  {
    DecisionsMembers(hs);
    if !NoneRefuses(hs) {
      var i :| 0 <= i < |hs| && !(hs[i].raises || hs[i].decision.None? || !hs[i].decision.value.refuses);
      assert hs[i].decision.value in Decisions(hs);
    }
  }

  lemma HeldMeans(hs: seq<Handler>)
    ensures Held(Decisions(hs)) <==> SomeHolds(hs) && NoneRefuses(hs)
  {
    DecisionsMembers(hs);
    RefusedMeans(hs);
    if SomeHolds(hs) {
      var i :| 0 <= i < |hs| && !hs[i].raises && hs[i].decision.Some? && hs[i].decision.value.holds;
      assert hs[i].decision.value in Decisions(hs);
    }
  }

  lemma {:induction false} FirstReasonConcat(a: seq<Decision>, b: seq<Decision>)
    ensures FirstReason(a + b) == if Refused(a) then FirstReason(a) else FirstReason(b)
  {
    if a == [] {
      assert a + b == b;
    } else {
      assert (a + b)[1..] == a[1..] + b && a == [a[0]] + a[1..];
      FirstReasonConcat(a[1..], b);
      assert Refused(a) <==> a[0].refuses || Refused(a[1..]);
    }
  }

  lemma {:induction false} FirstReasonMeans(hs: seq<Handler>, k: int)
    requires FirstToRefuse(hs, k)
    ensures Refused(Decisions(hs)) && FirstReason(Decisions(hs)) == ReasonOf(hs[k].decision.value)
  {
    hide Refused, FirstReason;
    RefusedMeans(hs);
    var n := |hs| - 1;
    var last := if !hs[n].raises && hs[n].decision.Some? then [hs[n].decision.value] else [];
    assert Decisions(hs) == Decisions(hs[..n]) + last;
    FirstReasonConcat(Decisions(hs[..n]), last);
    RefusedMeans(hs[..n]);
    if k < n {
      assert FirstToRefuse(hs[..n], k) && !NoneRefuses(hs[..n]);
      FirstReasonMeans(hs[..n], k);
    } else {
      OneReason(hs[k].decision.value);
    }
  }

  lemma OneReason(d: Decision)
    requires d.refuses
    ensures FirstReason([d]) == ReasonOf(d)
  {
  }

  predicate SomeDict(ds: seq<Decision>) {
    exists d :: d in ds && d.arguments.Some? && d.arguments.value.Dict?
  }

  lemma {:induction false} ArgumentsConcat(call: Payload, a: seq<Decision>, b: seq<Decision>)
    requires call.ToolUse?
    ensures Arguments(call, a + b) == if SomeDict(a) then Arguments(call, a) else Arguments(call, b)
  {
    if a == [] {
      assert a + b == b;
    } else {
      assert (a + b)[1..] == a[1..] + b && a == [a[0]] + a[1..];
      ArgumentsConcat(call, a[1..], b);
      assert SomeDict(a) <==> (a[0].arguments.Some? && a[0].arguments.value.Dict?) || SomeDict(a[1..]);
    }
  }

  lemma SomeDictMeans(hs: seq<Handler>)
    ensures SomeDict(Decisions(hs)) <==> exists i :: 0 <= i < |hs| && Overrides(hs[i])
  {
    DecisionsMembers(hs);
    if i :| 0 <= i < |hs| && Overrides(hs[i]) { assert hs[i].decision.value in Decisions(hs); }
  }

  lemma {:induction false} ArgumentsMeans(call: Payload, hs: seq<Handler>)
    requires call.ToolUse?
    ensures forall k :: FirstToOverride(hs, k) ==>
              Arguments(call, Decisions(hs)) == hs[k].decision.value.arguments.value
    ensures (forall i :: 0 <= i < |hs| ==> !Overrides(hs[i])) ==> Arguments(call, Decisions(hs)) == call.arguments
  {
    hide SomeDict, Arguments;
    if hs == [] {
      NoArguments(call);
    } else {
      var n := |hs| - 1;
      var init := hs[..n];
      var last := if !hs[n].raises && hs[n].decision.Some? then [hs[n].decision.value] else [];
      assert Decisions(hs) == Decisions(init) + last;
      ArgumentsMeans(call, init);
      ArgumentsConcat(call, Decisions(init), last);
      SomeDictMeans(init);
      NoArguments(call);
      if last != [] { OneArguments(call, last[0]); }
      forall k | FirstToOverride(hs, k) ensures Arguments(call, Decisions(hs)) == hs[k].decision.value.arguments.value {
        if k < n { assert FirstToOverride(init, k) && Overrides(init[k]); }
        else { assert forall i :: 0 <= i < n ==> init[i] == hs[i]; }
      }
      if forall i :: 0 <= i < |hs| ==> !Overrides(hs[i]) {
        assert forall i :: 0 <= i < n ==> init[i] == hs[i];
        assert !Overrides(hs[n]);
      }
    }
  }

  lemma NoArguments(call: Payload)
    requires call.ToolUse?
    ensures Arguments(call, []) == call.arguments
  {
  }

  lemma OneArguments(call: Payload, d: Decision)
    requires call.ToolUse?
    ensures Arguments(call, [d])
         == if d.arguments.Some? && d.arguments.value.Dict? then d.arguments.value else call.arguments
  {
  }

  // ---- Which calls run, and how ----------------------------------------------------------------------------

  lemma {:induction false} RunsMembers(registry: map<string, ToolKind>, calls: seq<Payload>, ds: seq<seq<Decision>>)
    requires |calls| == |ds| && forall p :: p in calls ==> p.ToolUse?
    ensures forall r :: r in RunsOf(registry, calls, ds) <==>
              exists j :: 0 <= j < |calls| && RunsAs(registry, calls[j], ds[j], r)
  {
    hide RunsAs;
    if calls != [] {
      var n := |calls| - 1;
      RunsMembers(registry, calls[..n], ds[..n]);
      LastRuns(registry, calls, ds);
      forall r ensures r in RunsOf(registry, calls, ds) <==>
        exists j :: 0 <= j < |calls| && RunsAs(registry, calls[j], ds[j], r)
      {
        if j :| 0 <= j < |calls| && RunsAs(registry, calls[j], ds[j], r) {
          if j < n { assert RunsAs(registry, calls[..n][j], ds[..n][j], r); }
        }
        if r in RunsOf(registry, calls[..n], ds[..n]) {
          var j :| 0 <= j < n && RunsAs(registry, calls[..n][j], ds[..n][j], r);
          assert RunsAs(registry, calls[j], ds[j], r);
        }
      }
    }
  }

  predicate RunsAs(registry: map<string, ToolKind>, call: Payload, ds: seq<Decision>, r: ToolRun)
    requires call.ToolUse?
  {
    !Refused(ds) && call.name in registry && r == RunOf(Overridden(call, ds))
  }

  lemma LastRuns(registry: map<string, ToolKind>, calls: seq<Payload>, ds: seq<seq<Decision>>)
    requires 0 < |calls| == |ds| && forall p :: p in calls ==> p.ToolUse?
    ensures var n := |calls| - 1;
            forall r :: r in RunsOf(registry, calls, ds)
                   <==> r in RunsOf(registry, calls[..n], ds[..n]) || RunsAs(registry, calls[n], ds[n], r)
  {
  }

  /**
    What dispatching did to one call. A refused call did not run, and its result is the denial with the first
    refusal's reason. Any other ran if it was dispatched and its tool is registered, with the first dictionary
    a hook returned, or its own arguments.
    */
  ghost predicate DispatchedAs(
    hs: seq<Handler>, registry: map<string, ToolKind>, call: Payload, from: World, to: World)
    requires call.ToolUse?
  {
    && from.runs <= to.runs
    && (forall r :: r in to.runs[|from.runs|..] && r.id == call.id ==>
          && NoneRefuses(hs) && call.name in registry && r.name == call.name
          && (forall k :: FirstToOverride(hs, k) ==> r.arguments == hs[k].decision.value.arguments.value)
          && ((forall i :: 0 <= i < |hs| ==> !Overrides(hs[i])) ==>
                r.arguments
                == if call.arguments in {Null, Bool(false), Int(0), Str(""), List([])} then Dict([])
                   else call.arguments))
    && (NoneRefuses(hs) && call.name in registry && Answered(to.log, call.id) ==>
          exists r :: r in to.runs[|from.runs|..] && r.id == call.id)
    && (forall i, k :: |from.log| <= i && IsResult(to.log, i, call.id) && FirstToRefuse(hs, k) ==>
          to.log[i].payload
          == ToolResult(call.id, Some(Null), Some("denied by hook: " + ReasonOf(hs[k].decision.value))))
  }

  lemma DispatchedMeans(
    registry: map<string, ToolKind>, pending: seq<Payload>, s: Script, at: nat, from: World, to: World,
    failed: bool, j: nat)
    requires OpenBatch(from.log, pending) && j < |pending|
    requires Ran(registry, pending, DecisionsFrom(s, at, |pending|), from, to, failed)
    ensures DispatchedAs(s.hooks(at + j), registry, pending[j], from, to)
  {
    hide Answers, Refused, RunsOf, Decisions, EndsOutcome, NoneRefuses, FirstToOverride, Overrides;
    var ds := DecisionsFrom(s, at, |pending|);
    var hs, call := s.hooks(at + j), pending[j];
    hide RunsAs;
    var k :| 0 <= k <= |pending| && (!failed ==> k == |pending|) && RanUntil(registry, pending, ds, from, to, k);
    assert call in pending && ds[j] == Decisions(hs);
    var runs := to.runs[|from.runs|..];
    assert runs == RunsOf(registry, pending[..k], ds[..k]);
    RunsOfCall(registry, pending, ds, k, j);
    RanMeans(hs, registry, call);
    if Answered(to.log, call.id) { DispatchedBefore(from.log, to.log, pending, k, j); }
    RefusedMeans(hs);
    forall i, f | |from.log| <= i && IsResult(to.log, i, call.id) && FirstToRefuse(hs, f)
      ensures to.log[i].payload
           == ToolResult(call.id, Some(Null), Some("denied by hook: " + ReasonOf(hs[f].decision.value)))
    {
      assert Answered(to.log, call.id);
      assert MayEnd(registry, call, ds[j], to.log[i].payload);
      DenialMeans(registry, call, hs, f, to.log[i].payload);
    }
  }

  /** The runs of one call among those of the first `k`. */
  lemma RunsOfCall(
    registry: map<string, ToolKind>, pending: seq<Payload>, ds: seq<seq<Decision>>, k: nat, j: nat)
    requires k <= |pending| == |ds| && j < |pending| && forall p :: p in pending ==> p.ToolUse?
    requires forall a, b :: 0 <= a < b < |pending| ==> pending[a].id != pending[b].id
    ensures var runs := RunsOf(registry, pending[..k], ds[..k]);
            && (forall r :: r in runs && r.id == pending[j].id ==> RunsAs(registry, pending[j], ds[j], r))
            && (j < k && !Refused(ds[j]) && pending[j].name in registry ==>
                  exists r :: r in runs && r.id == pending[j].id)
  {
    hide RunsOf, Refused, Arguments;
    RunsMembers(registry, pending[..k], ds[..k]);
    var runs := RunsOf(registry, pending[..k], ds[..k]);
    forall r | r in runs && r.id == pending[j].id ensures RunsAs(registry, pending[j], ds[j], r) {
      var i :| 0 <= i < k && RunsAs(registry, pending[..k][i], ds[..k][i], r);
      assert pending[i].id == pending[j].id;
    }
    if j < k && !Refused(ds[j]) && pending[j].name in registry {
      var r := RunOf(Overridden(pending[j], ds[j]));
      assert RunsAs(registry, pending[..k][j], ds[..k][j], r);
      assert r in runs;
    }
  }

  lemma RanMeans(hs: seq<Handler>, registry: map<string, ToolKind>, call: Payload)
    requires call.ToolUse?
    ensures forall r :: RunsAs(registry, call, Decisions(hs), r) ==>
              && NoneRefuses(hs) && call.name in registry && r.id == call.id && r.name == call.name
              && (forall k :: FirstToOverride(hs, k) ==> r.arguments == hs[k].decision.value.arguments.value)
              && ((forall i :: 0 <= i < |hs| ==> !Overrides(hs[i])) ==>
                    r.arguments
                    == if call.arguments in {Null, Bool(false), Int(0), Str(""), List([])} then Dict([])
                       else call.arguments)
  {
    hide Refused, Decisions, NoneRefuses, Arguments;
    RefusedMeans(hs);
    ArgumentsMeans(call, hs);
  }

  /** A call of the batch that is answered is among those the batch got to. */
  lemma DispatchedBefore(a: seq<Event>, b: seq<Event>, pending: seq<Payload>, k: nat, j: nat)
    requires OpenBatch(a, pending) && k <= |pending| && j < |pending|
    requires Answers(a, b, Ids(pending[..k])) && Answered(b, pending[j].id)
    ensures j < k
  {
    assert pending[j] in pending;
    var i :| IsResult(b, i, pending[j].id);
    assert !IsResult(a, i, pending[j].id);
    var p :| p in pending[..k] && p.id == pending[j].id;
    var q :| 0 <= q < k && pending[..k][q] == p;
    assert pending[q].id == pending[j].id;
  }

  lemma DenialMeans(registry: map<string, ToolKind>, call: Payload, hs: seq<Handler>, k: int, p: Payload)
    requires call.ToolUse? && FirstToRefuse(hs, k) && MayEnd(registry, call, Decisions(hs), p)
    ensures p == ToolResult(call.id, Some(Null), Some("denied by hook: " + ReasonOf(hs[k].decision.value)))
  {
    hide Refused, Decisions, FirstReason;
    FirstReasonMeans(hs, k);
    var o :| EndsOutcome(registry, call, Decisions(hs), o, p);
  }

  // ---- Which calls are asked for ---------------------------------------------------------------------------

  /** The log ends in approval requests, and those are for the calls that some hook holds and none refuses. */
  ghost predicate AskedApprovals(s: Script, at: nat, pending: seq<Payload>, from: seq<Event>, to: seq<Event>)
    requires forall p :: p in pending ==> p.ToolUse?
  {
    exists mid, requests ::
      && SameTools(from, mid) && to == AddAll(mid, requests) && OnlyFor(s, at, pending, requests)
  }

  ghost predicate OnlyFor(s: Script, at: nat, pending: seq<Payload>, requests: seq<Payload>)
    requires forall p :: p in pending ==> p.ToolUse?
  {
    && (forall p :: p in requests ==> exists j :: 0 <= j < |pending| && p == ApprovalRequested(pending[j].id))
    && forall j :: 0 <= j < |pending| ==>
         (ApprovalRequested(pending[j].id) in requests <==> HeldAt(s, at, j))
  }

  /** Some hook asked about the j-th call holds it, and none refuses it. */
  ghost predicate HeldAt(s: Script, at: nat, j: nat) {
    SomeHolds(s.hooks(at + j)) && NoneRefuses(s.hooks(at + j))
  }

  lemma RequestsMean(s: Script, at: nat, pending: seq<Payload>)
    requires forall p :: p in pending ==> p.ToolUse?
    requires forall i, j :: 0 <= i < j < |pending| ==> pending[i].id != pending[j].id
    ensures OnlyFor(s, at, pending, Requests(pending, DecisionsFrom(s, at, |pending|)))
    ensures Requests(pending, DecisionsFrom(s, at, |pending|)) != []
       <==> exists j: nat :: j < |pending| && HeldAt(s, at, j)
  {
    var ds := DecisionsFrom(s, at, |pending|);
    RequestsExact(pending, ds);
    forall j: nat | j < |pending| ensures Held(ds[j]) <==> HeldAt(s, at, j) {
      HeldMeans(s.hooks(at + j));
    }
    RequestsAre(s, at, pending, ds, Requests(pending, ds));
  }

  lemma RequestsAre(s: Script, at: nat, pending: seq<Payload>, ds: seq<seq<Decision>>, requests: seq<Payload>)
    requires |pending| == |ds| && forall p :: p in pending ==> p.ToolUse?
    requires forall i, j :: 0 <= i < j < |pending| ==> pending[i].id != pending[j].id
    requires forall j :: 0 <= j < |pending| && Held(ds[j]) ==> multiset(requests)[ApprovalRequested(pending[j].id)] == 1
    requires forall p :: p in requests ==>
               exists j :: 0 <= j < |pending| && Held(ds[j]) && p == ApprovalRequested(pending[j].id)
    requires forall j: nat :: j < |pending| ==> (Held(ds[j]) <==> HeldAt(s, at, j))
    ensures OnlyFor(s, at, pending, requests)
    ensures requests != [] <==> exists j: nat :: j < |pending| && HeldAt(s, at, j)
  {
    hide Held, HeldAt;
    forall j: nat | j < |pending| ensures ApprovalRequested(pending[j].id) in requests <==> HeldAt(s, at, j) {
      if HeldAt(s, at, j) { assert multiset(requests)[ApprovalRequested(pending[j].id)] == 1; }
      if ApprovalRequested(pending[j].id) in requests {
        var i :| 0 <= i < |pending| && Held(ds[i])
                 && ApprovalRequested(pending[j].id) == ApprovalRequested(pending[i].id);
        assert i == j;
      }
    }
    if requests != [] {
      assert requests[0] in requests;
      var j :| 0 <= j < |pending| && Held(ds[j]) && requests[0] == ApprovalRequested(pending[j].id);
      assert HeldAt(s, at, j);
    }
  }

  // ---- The whole batch -------------------------------------------------------------------------------------

  /**
    The loop waits exactly when hooks hold some call that none refuses, and then for those calls; otherwise each
    call is dispatched as its hooks decided.
    */
  ghost predicate DecidedByHooks(
    registry: map<string, ToolKind>, s: Script, at: nat, pending: seq<Payload>, from: World, to: World, waits: bool)
  {
    && (forall p :: p in pending ==> p.ToolUse?)
    && (waits <==> exists j: nat :: j < |pending| && HeldAt(s, at, j))
    && (waits ==> to.runs == from.runs && AskedApprovals(s, at, pending, from.log, to.log))
    && (!waits ==> forall j: nat :: j < |pending| ==> DispatchedAs(s.hooks(at + j), registry, pending[j], from, to))
  }

  lemma HooksDecided(
    registry: map<string, ToolKind>, s: Script, at: nat, pending: seq<Payload>, from: World, to: World, waits: bool,
    failed: bool)
    requires OpenBatch(from.log, pending)
    requires var ds := DecisionsFrom(s, at, |pending|);
             && (waits <==> Requests(pending, ds) != [])
             && if waits then Paused(pending, ds, from, to) else Ran(registry, pending, ds, from, to, failed)
    ensures DecidedByHooks(registry, s, at, pending, from, to, waits)
    ensures waits ==> exists j: nat :: HeldAt(s, at, j)
  {
    hide Requests, HeldAt, Ran, DispatchedAs;
    var ds := DecisionsFrom(s, at, |pending|);
    RequestsMean(s, at, pending);
    if waits {
      var mid :| SameTools(from.log, mid) && to.log == AddAll(mid, Requests(pending, ds));
      assert OnlyFor(s, at, pending, Requests(pending, ds));
    } else {
      forall j: nat | j < |pending| ensures DispatchedAs(s.hooks(at + j), registry, pending[j], from, to) {
        DispatchedMeans(registry, pending, s, at, from, to, failed, j);
      }
    }
  }

  lemma BatchCalls(log: seq<Event>, pending: seq<Payload>)
    requires OpenBatch(log, pending)
    ensures forall p :: p in pending ==> p.ToolUse?
    ensures forall j, k :: 0 <= j < k < |pending| ==> pending[j].id != pending[k].id
  {
  }

  lemma PausedBatch(pending: seq<Payload>, ds: seq<seq<Decision>>, from: World, mid: seq<Event>, to: World)
    requires |pending| == |ds| && forall p :: p in pending ==> p.ToolUse?
    requires to.runs == from.runs && SameTools(from.log, mid) && to.log == AddAll(mid, Requests(pending, ds))
    requires SameTools(from.log, to.log)
    ensures Paused(pending, ds, from, to)
  {
  }
}
