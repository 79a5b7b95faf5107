/** The ids of streamed Gemini calls over a whole session: they count from zero in every response. */
module GeminiIds {
  import opened Wrappers
  import opened JsonValues
  import opened Events
  import opened StreamEvents
  import opened GeminiStreams
  import opened GeminiLaws
  import opened StreamReplies
  import opened LogHistory
  import opened SessionState

  /** A response, and what the session logs before it other than calls. */
  datatype Exchange = Exchange(others: seq<Payload>, frames: seq<Frame>) {

    ghost predicate Valid() {
      Emission(frames, None).1 && forall p :: p in others ==> !p.ToolUse?
    }

    function Calls(): seq<FunctionCall> {
      CallsOf(AllParts(frames))
    }
  }

  function AfterOne(log: seq<Event>, x: Exchange): seq<Event> {
    AddAll(AddAll(log, x.others), Logged(Kept(Emission(x.frames, None).0)))
  }

  function AfterAll(log: seq<Event>, xs: seq<Exchange>): seq<Event> {
    if xs == [] then log else AfterOne(AfterAll(log, xs[..|xs| - 1]), xs[|xs| - 1])
  }

  ghost predicate CallIdsDistinct(log: seq<Event>) {
    forall i, j, id :: IsUse(log, i, id) && IsUse(log, j, id) ==> i == j
  }

  ghost predicate AtMostOneCalls(xs: seq<Exchange>) {
    forall a, b :: 0 <= a < b < |xs| ==> xs[a].Calls() == [] || xs[b].Calls() == []
  }

  /** `to` continues `log` with `n` numbered calls from `base` on, and no other calls. */
  ghost predicate Continues(log: seq<Event>, to: seq<Event>, base: nat, n: nat) {
    && log <= to && |log| <= base
    && (forall k :: 0 <= k < n ==> IsUse(to, base + k, TextId(CallId(k))))
    && forall i, id :: IsUse(to, i, id) ==>
         IsUse(log, i, id) || (base <= i < base + n && id == TextId(CallId(i - base)))
  }

  lemma {:induction false} CallUsesAt(calls: seq<Tool>, k: nat)
    requires k < |calls|
    ensures |CallUses(calls)| == |calls| && CallUses(calls)[k] == UseOf(calls[k])
  {
  }

  lemma OthersAdded(log: seq<Event>, others: seq<Payload>)
    requires forall p :: p in others ==> !p.ToolUse?
    ensures forall i, id :: IsUse(AddAll(log, others), i, id) <==> IsUse(log, i, id)
  {
    hide AddAll;
    var to := AddAll(log, others);
    forall i | |log| <= i < |to| ensures !to[i].payload.ToolUse? {
      AddAllAt(log, others, i - |log|);
      assert others[i - |log|] in others;
    }
  }

  ghost predicate NumberedKept(kept: seq<StreamEvent>, n: nat) {
    && |kept| == n + 1 && kept[0].Message?
    && forall j :: 1 <= j < |kept| ==> kept[j].Use? && kept[j].useId == TextId(CallId(j - 1))
  }

  /** `to` adds a message and `n` numbered calls. */
  ghost predicate NumberedLogged(mid: seq<Event>, to: seq<Event>, n: nat) {
    && mid <= to && |to| == |mid| + 1 + n && to[|mid|].payload.AssistantMessage?
    && forall i :: |mid| < i < |to| ==> to[i].payload.ToolUse? && to[i].payload.id == TextId(CallId(i - |mid| - 1))
  }

  lemma NumberedContinues(mid: seq<Event>, to: seq<Event>, n: nat)
    requires NumberedLogged(mid, to, n)
    ensures Continues(mid, to, |mid| + 1, n)
  {
    hide CallId;
  }

  /** A message and numbered uses, logged one after the other. */
  lemma KeptAdded(mid: seq<Event>, kept: seq<StreamEvent>, n: nat)
    requires (forall e :: e in kept ==> IsDurable(e)) && |kept| == n + 1 && NumberedKept(kept, n)
    ensures Continues(mid, AddAll(mid, Logged(kept)), |mid| + 1, n)
  {
    hide AddAll, Logged, CallId, NumberedKept, Continues, LoggedOne, IsDurable;
    var to := AddAll(mid, Logged(kept));
    KeptAt(mid, kept, n, 0);
    forall i | |mid| < i < |to| ensures to[i].payload.ToolUse? && to[i].payload.id == TextId(CallId(i - |mid| - 1)) {
      KeptAt(mid, kept, n, i - |mid|);
    }
    NumberedContinues(mid, to, n);
  }

  lemma KeptAt(mid: seq<Event>, kept: seq<StreamEvent>, n: nat, j: nat)
    requires (forall e :: e in kept ==> IsDurable(e)) && |kept| == n + 1 && NumberedKept(kept, n) && j < |kept|
    ensures var to := AddAll(mid, Logged(kept));
            && |to| == |mid| + |kept|
            && if j == 0 then to[|mid|].payload.AssistantMessage?
               else to[|mid| + j].payload.ToolUse? && to[|mid| + j].payload.id == TextId(CallId(j - 1))
  {
    hide AddAll, Logged, CallId;
    AddAllAt(mid, Logged(kept), j);
  }

  /** A successful response keeps its message, and then its calls numbered from zero. */
  lemma ResponseKept(x: Exchange)
    requires x.Valid()
    ensures NumberedKept(Kept(Emission(x.frames, None).0), |x.Calls()|)
  {
    hide Kept, Emission, AllParts, CallsOf, CallUses, CallId;
    StreamKeepsItsParts(x.frames, None);
    NumberedUses(NumberedCalls(x.Calls()));
    MessageThenUses(Kept(Emission(x.frames, None).0), CallUses(NumberedCalls(x.Calls())));
  }

  lemma MessageThenUses(kept: seq<StreamEvent>, uses: seq<StreamEvent>)
    requires exists m: StreamEvent :: m.Message? && kept == [m] + uses
    requires forall k :: 0 <= k < |uses| ==> uses[k].Use? && uses[k].useId == TextId(CallId(k))
    ensures NumberedKept(kept, |uses|)
  {
    hide CallId;
    forall j | 1 <= j < |kept| ensures kept[j] == uses[j - 1] {
    }
  }

  /** A successful response logs its calls under the numbers from zero. */
  lemma ResponseContinues(log: seq<Event>, x: Exchange)
    requires x.Valid()
    ensures Continues(log, AfterOne(log, x), |log| + |x.others| + 1, |x.Calls()|)
  {
    hide Kept, Emission, AllParts, CallsOf, Logged, AddAll, CallUses, CallId;
    ResponseKept(x);
    OthersAdded(log, x.others);
    KeptAdded(AddAll(log, x.others), Kept(Emission(x.frames, None).0), |x.Calls()|);
  }

  lemma NumberedUses(tools: seq<Tool>)
    requires forall k :: 0 <= k < |tools| ==> tools[k].id == CallId(k)
    ensures |CallUses(tools)| == |tools|
    ensures forall k :: 0 <= k < |tools| ==> CallUses(tools)[k].Use? && CallUses(tools)[k].useId == TextId(CallId(k))
  {
    hide CallUses, CallId;
    if tools == [] { NoCallUses(tools); }
    forall k | 0 <= k < |tools|
      ensures |CallUses(tools)| == |tools| && CallUses(tools)[k] == UseOf(tools[k])
    {
      CallUsesAt(tools, k);
    }
  }

  lemma NoCallUses(tools: seq<Tool>)
    requires tools == []
    ensures CallUses(tools) == []
  {
  }

  /** One more response keeps the ids distinct exactly when none of its numbers was taken. */
  lemma DistinctAfter(log: seq<Event>, to: seq<Event>, base: nat, n: nat)
    requires Continues(log, to, base, n)
    ensures CallIdsDistinct(to)
       <==> CallIdsDistinct(log) && forall k :: 0 <= k < n ==> !Called(log, TextId(CallId(k)))
    ensures forall id :: Called(to, id) <==> Called(log, id) || exists k :: 0 <= k < n && id == TextId(CallId(k))
  {
    hide CallId;
    forall i, id | IsUse(log, i, id) ensures IsUse(to, i, id) {
    }
    if CallIdsDistinct(log) && forall k :: 0 <= k < n ==> !Called(log, TextId(CallId(k))) {
      forall i, j, id | IsUse(to, i, id) && IsUse(to, j, id) ensures i == j {
        if base <= i && base <= j { IdsDiffer(i - base, j - base); }
      }
    }
    if k :| 0 <= k < n && Called(log, TextId(CallId(k))) {
      var i :| IsUse(log, i, TextId(CallId(k)));
      assert IsUse(to, i, TextId(CallId(k))) && IsUse(to, base + k, TextId(CallId(k)));
    }
    forall id ensures Called(to, id) <==> Called(log, id) || exists k :: 0 <= k < n && id == TextId(CallId(k)) {
      if k :| 0 <= k < n && id == TextId(CallId(k)) { assert IsUse(to, base + k, id); }
      if i :| IsUse(to, i, id) { assert IsUse(log, i, id) || (0 <= i - base < n && id == TextId(CallId(i - base))); }
    }
  }

  /**
    Whatever else is logged in between, the ids of a session's calls stay distinct exactly when at most one of its
    streamed responses makes calls.
    */
  lemma {:induction false} IdsStayDistinctIff(log: seq<Event>, xs: seq<Exchange>)
    requires CallIdsDistinct(log) && forall k: nat :: !Called(log, TextId(CallId(k)))
    requires forall x :: x in xs ==> x.Valid()
    ensures CallIdsDistinct(AfterAll(log, xs)) <==> AtMostOneCalls(xs)
    ensures forall k: nat :: Called(AfterAll(log, xs), TextId(CallId(k))) ==>
              exists a :: 0 <= a < |xs| && xs[a].Calls() != []
    ensures (exists a :: 0 <= a < |xs| && xs[a].Calls() != []) ==> Called(AfterAll(log, xs), TextId(CallId(0)))
  {
    hide CallId, AfterOne, Exchange.Calls, Continues, Exchange.Valid;
    if xs != [] {
      var n := |xs| - 1;
      var init, x := xs[..n], xs[n];
      assert xs == init + [x];
      IdsStayDistinctIff(log, init);
      var before := AfterAll(log, init);
      ResponseContinues(before, x);
      DistinctAfter(before, AfterOne(before, x), |before| + |x.others| + 1, |x.Calls()|);
      OneMoreCalls(init, x);
    }
  }

  lemma OneMoreCalls(init: seq<Exchange>, x: Exchange)
    ensures AtMostOneCalls(init + [x])
       <==> AtMostOneCalls(init) && (x.Calls() == [] || forall a :: 0 <= a < |init| ==> init[a].Calls() == [])
    ensures (exists a :: 0 <= a < |init + [x]| && (init + [x])[a].Calls() != [])
       <==> x.Calls() != [] || exists a :: 0 <= a < |init| && init[a].Calls() != []
  {
    hide Exchange.Calls;
    var xs := init + [x];
    forall a | 0 <= a < |init| ensures xs[a] == init[a] {
    }
    assert xs[|init|] == x;
    if AtMostOneCalls(xs) {
      forall a, b | 0 <= a < b < |init| ensures init[a].Calls() == [] || init[b].Calls() == [] {
        assert xs[a].Calls() == [] || xs[b].Calls() == [];
      }
      forall a | 0 <= a < |init| ensures x.Calls() == [] || init[a].Calls() == [] {
        assert xs[a].Calls() == [] || xs[|init|].Calls() == [];
      }
    }
  }

  /** Two responses of one call each, one after the other. */
  lemma TwoCallsCollide()
    ensures var x := Exchange([], [Chunk([Part("", Calls(FunctionCall("f", EMPTY_DICT)))], "STOP")]);
            && x.Valid() && !CallIdsDistinct(AfterAll([], [x, x])) && !ToolDiscipline(AfterAll([], [x, x]))
  {
    hide CallId, AfterAll, CallsOf, AllParts, Emission;
    var part := Part("", Calls(FunctionCall("f", EMPTY_DICT)));
    var x := Exchange([], [Chunk([part], "STOP")]);
    var xs := [x, x];
    StreamedCallStopsWithEndTurn();
    OneOrTwoParts(INITIAL, part, part);
    OneFrame([part], "STOP");
    assert x.Calls() != [];
    IdsStayDistinctIff([], xs);
    assert xs[0].Calls() != [] && xs[1].Calls() != [];
  }
}
