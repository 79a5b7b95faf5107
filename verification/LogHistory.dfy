/**
  Every log a session can reach, as a state machine over its appends: messages and other notes,
  calls with new ids, one answer a call, the three compaction strategies, and reverts at any time.
  The invariant below is what all of them keep, and the laws of the effective stream follow from it.
  */
module LogHistory {
  import opened Wrappers
  import opened JsonValues
  import opened Events
  import opened Mutations
  import opened Compaction
  import opened Strategies
  import Text

  // ---- The state machine -----------------------------------------------------------------------

  datatype Step =
    | Note(payload: Payload)
    | Call(id: ToolId, name: string, arguments: Json)
    | Answer(id: ToolId, output: Option<Json>, error: Option<string>)
    | RunMarkerTail(marker: MarkerTail)
    | RunTokenMarkerTail(tokens: TokenMarkerTail)
    | RunToolOutputCap(cap: ToolOutputCap)
    | Undo(revokes: int)

  ghost predicate IsUse(log: seq<Event>, i: int, id: ToolId) {
    0 <= i < |log| && log[i].payload.ToolUse? && log[i].payload.id == id
  }

  ghost predicate IsResult(log: seq<Event>, j: int, id: ToolId) {
    0 <= j < |log| && log[j].payload.ToolResult? && log[j].payload.toolUseId == id
  }

  ghost predicate Called(log: seq<Event>, id: ToolId) {
    exists i :: IsUse(log, i, id)
  }

  ghost predicate Answered(log: seq<Event>, id: ToolId) {
    exists j :: IsResult(log, j, id)
  }

  predicate Plain(p: Payload) {
    !p.ToolUse? && !p.ToolResult? && !p.Compact? && !p.Revert? && !p.Summary?
  }

  /** The strategies refuse these parameters at construction. */
  predicate WellConfigured(step: Step) {
    match step
    case RunMarkerTail(s) => s.Valid()
    case RunTokenMarkerTail(s) => s.Valid()
    case RunToolOutputCap(s) => s.Valid()
    case _ => true
  }

  ghost predicate Enabled(log: seq<Event>, step: Step) {
    && WellConfigured(step)
    && match step
       case Note(p) => Plain(p)
       case Call(id, _, _) => !Called(log, id)
       case Answer(id, _, _) => Called(log, id) && !Answered(log, id)
       case _ => true
  }

  function Add(log: seq<Event>, p: Payload): seq<Event> {
    log + [Event(|log|, p)]
  }

  /** A strategy whose resolution of the log fails raises and appends nothing. */
  function Do(log: seq<Event>, step: Step): seq<Event>
    requires WellConfigured(step)
  {
    match step
    case Note(p) => Add(log, p)
    case Call(id, name, args) => Add(log, ToolUse(id, name, args))
    case Answer(id, output, error) => Add(log, ToolResult(id, output, error))
    case RunMarkerTail(s) => if Apply(log).Success? then s.Next(log) else log
    case RunTokenMarkerTail(s) => if Apply(log).Success? then s.Next(log) else log
    case RunToolOutputCap(s) => if Apply(log).Success? then s.Next(log) else log
    case Undo(n) => Add(log, Revert(n))
  }

  /** `to` is reached from `from` by the steps, each enabled when it is taken. */
  ghost predicate Takes(from: seq<Event>, steps: seq<Step>, to: seq<Event>)
    decreases |steps|
  {
    if steps == [] then from == to
    else Enabled(from, steps[0]) && Takes(Do(from, steps[0]), steps[1..], to)
  }

  ghost predicate Reaches(from: seq<Event>, to: seq<Event>) {
    exists steps :: Takes(from, steps, to)
  }

  ghost predicate Reachable(log: seq<Event>) {
    Reaches([], log)
  }

  lemma {:induction false} TakesConcat(a: seq<Event>, s: seq<Step>, b: seq<Event>, t: seq<Step>, c: seq<Event>)
    requires Takes(a, s, b) && Takes(b, t, c)
    ensures Takes(a, s + t, c)
    decreases |s|
  {
    if s == [] {
      assert s + t == t;
    } else {
      assert (s + t)[1..] == s[1..] + t;
      TakesConcat(Do(a, s[0]), s[1..], b, t, c);
    }
  }

  lemma ReachesTransitive(a: seq<Event>, b: seq<Event>, c: seq<Event>)
    requires Reaches(a, b) && Reaches(b, c)
    ensures Reaches(a, c)
  {
    var s :| Takes(a, s, b);
    var t :| Takes(b, t, c);
    TakesConcat(a, s, b, t, c);
  }

  lemma ReachesOne(log: seq<Event>, step: Step)
    requires Enabled(log, step)
    ensures Reaches(log, Do(log, step))
  {
    assert [step][1..] == [];
    assert Takes(log, [step], Do(log, step));
  }

  // ---- The invariant ---------------------------------------------------------------------------

  ghost predicate ToolDiscipline(log: seq<Event>) {
    && (forall i, j, id :: IsUse(log, i, id) && IsUse(log, j, id) ==> i == j)
    && (forall i, j, id :: IsResult(log, i, id) && IsResult(log, j, id) ==> i == j)
    && (forall j, id :: IsResult(log, j, id) ==> exists i :: i < j && IsUse(log, i, id))
  }

  /** A hidden call has an answer, and a call and its answer are hidden together. */
  ghost predicate PairClosed(log: seq<Event>, hidden: seq<int>) {
    && (forall i, id :: i in hidden && IsUse(log, i, id) ==> Answered(log, id))
    && (forall i, j, id :: IsUse(log, i, id) && IsResult(log, j, id) ==> (i in hidden <==> j in hidden))
  }

  ghost predicate HidesWell(log: seq<Event>, hidden: seq<int>) {
    && hidden != []
    && (forall s :: s in hidden ==> 0 <= s < |log| && IsMessage(log[s].payload))
    && PairClosed(log, hidden)
  }

  ghost predicate Disjoint(log: seq<Event>) {
    forall c, d, s :: c in Live(log) && d in Live(log) && s in c.payload.hides && s in d.payload.hides ==> c == d
  }

  ghost predicate Inv(log: seq<Event>) {
    && Dense(log)
    && ToolDiscipline(log)
    && (forall c :: c in log && c.payload.Compact? ==> HidesWell(log, c.payload.hides))
    && (forall c, s :: c in log && c.payload.Compact? && s in c.payload.hides ==> s < c.num)
    && Disjoint(log)
    && (forall e :: e in log ==> !e.payload.Summary?)
  }

  ghost function Hidden(log: seq<Event>): set<int> {
    Shadow(Live(log))
  }

  ghost function Effective(log: seq<Event>): seq<Event>
    requires Inv(log)
  {
    ApplySucceeds(log);
    Apply(log).value
  }

  lemma ApplySucceeds(log: seq<Event>)
    requires Inv(log)
    ensures Apply(log) == Success(RenderAll(log, Live(log)))
  {
  }

  // ---- The invariant is kept ---------------------------------------------------------------------

  lemma HidesWellStable(log: seq<Event>, e: Event, hidden: seq<int>)
    requires HidesWell(log, hidden) && ToolDiscipline(log + [e])
    ensures HidesWell(log + [e], hidden)
  {
    var log' := log + [e];
    assert forall i, id :: IsUse(log', i, id) && i < |log| ==> IsUse(log, i, id);
    assert forall j, id :: IsResult(log', j, id) && j < |log| ==> IsResult(log, j, id);
    assert forall j, id :: IsResult(log, j, id) ==> IsResult(log', j, id);
  }

  lemma DisciplineAfter(log: seq<Event>, p: Payload)
    requires ToolDiscipline(log)
    requires p.ToolUse? ==> !Called(log, p.id)
    requires p.ToolResult? ==> Called(log, p.toolUseId) && !Answered(log, p.toolUseId)
    ensures ToolDiscipline(Add(log, p))
  {
    var log' := Add(log, p);
    assert forall i, id :: IsUse(log', i, id) && i < |log| ==> IsUse(log, i, id);
    assert forall i, id :: IsResult(log', i, id) && i < |log| ==> IsResult(log, i, id);
    assert forall i, id :: IsUse(log, i, id) ==> IsUse(log', i, id);
  }

  lemma LiveAfter(log: seq<Event>, p: Payload)
    ensures forall c :: c in Live(Add(log, p)) ==>
                          c in Live(log) || (p.Compact? && c == Event(|log|, p))
    ensures !IsMutation(Event(|log|, p)) ==> Live(Add(log, p)) == Live(log)
    ensures p.Compact? ==>
              Live(Add(log, p)) == Live(log) + (if |log| in Revoked(log) then [] else [Event(|log|, p)])
  {
    var e := Event(|log|, p);
    var log' := Add(log, p);
    assert forall x :: x in log' <==> x in log || x == e;
    assert log'[..|log|] == log;
    assert Revoked(log') >= Revoked(log);
    if !p.Revert? {
      assert Revoked(log') == Revoked(log);
    }
  }

  /** Any append that respects the tool discipline keeps the invariant; a compact must hide well. */
  lemma AddKeepsInv(log: seq<Event>, p: Payload)
    requires Inv(log) && !p.Summary?
    requires p.ToolUse? ==> !Called(log, p.id)
    requires p.ToolResult? ==> Called(log, p.toolUseId) && !Answered(log, p.toolUseId)
    requires p.Compact? ==> HidesWell(log, p.hides) && forall s :: s in p.hides ==> s !in Hidden(log)
    ensures Inv(Add(log, p))
  {
    var log' := Add(log, p);
    DisciplineAfter(log, p);
    LiveAfter(log, p);
    forall c | c in log' && c.payload.Compact?
      ensures HidesWell(log', c.payload.hides)
    {
      HidesWellStable(log, Event(|log|, p), c.payload.hides);
    }
    assert Disjoint(log') by {
      forall c, d, s | c in Live(log') && d in Live(log') && s in c.payload.hides && s in d.payload.hides
        ensures c == d
      {
        if c in Live(log) { assert s in Hidden(log); }
        if d in Live(log) { assert s in Hidden(log); }
      }
    }
  }

  // ---- What the tail strategies hide ---------------------------------------------------------------

  /** The messages that are not hidden, in log order. */
  function Visible(log: seq<Event>, hidden: set<int>): seq<Event> {
    if log == [] then []
    else
      var e := log[|log| - 1];
      Visible(log[..|log| - 1], hidden) + (if IsMessage(e.payload) && e.num !in hidden then [e] else [])
  }

  lemma {:induction false} VisibleMembers(log: seq<Event>, hidden: set<int>)
    ensures forall e :: e in Visible(log, hidden) <==> e in log && IsMessage(e.payload) && e.num !in hidden
  {
    if log != [] {
      VisibleMembers(log[..|log| - 1], hidden);
    }
  }

  lemma {:induction false} MessagesConcat(a: seq<Event>, b: seq<Event>)
    ensures Messages(a + b) == Messages(a) + Messages(b)
  {
    if b == [] {
      assert a + b == a;
    } else {
      assert (a + b)[..|a + b| - 1] == a + b[..|b| - 1];
      MessagesConcat(a, b[..|b| - 1]);
    }
  }

  lemma MessagesOfOne(e: Event, live: seq<Event>)
    requires NoneEmpty(live)
    ensures Messages(Render(e, live)) == if IsMessage(e.payload) && e.num !in Shadow(live) then [e] else []
  {
    SummaryAtIsLive(live, e.num);
    var out := Render(e, live);
    if out != [] {
      assert out == [out[0]] && out[..0] == [];
    }
  }

  /** Summaries are not messages: the message list is the unhidden part of the log itself. */
  lemma {:induction false} MessagesOfRender(log: seq<Event>, live: seq<Event>)
    requires NoneEmpty(live)
    ensures Messages(RenderAll(log, live)) == Visible(log, Shadow(live))
  {
    if log != [] {
      var init, e := log[..|log| - 1], log[|log| - 1];
      MessagesOfRender(init, live);
      MessagesOfOne(e, live);
      MessagesConcat(RenderAll(init, live), Render(e, live));
    }
  }

  lemma {:induction false} UseNumsOk(log: seq<Event>)
    requires Dense(log)
    ensures forall id :: id in UseNums(log) ==> IsUse(log, UseNums(log)[id], id)
    ensures forall i, id :: IsUse(log, i, id) ==> id in UseNums(log)
  {
    if log != [] {
      var init := log[..|log| - 1];
      UseNumsOk(init);
      assert forall i, id :: IsUse(init, i, id) <==> IsUse(log, i, id) && i < |log| - 1;
    }
  }

  lemma {:induction false} ResultNumsOk(log: seq<Event>)
    requires Dense(log)
    ensures forall id :: id in ResultNums(log) ==> IsResult(log, ResultNums(log)[id], id)
    ensures forall i, id :: IsResult(log, i, id) ==> id in ResultNums(log)
  {
    if log != [] {
      var init := log[..|log| - 1];
      ResultNumsOk(init);
      assert forall i, id :: IsResult(init, i, id) <==> IsResult(log, i, id) && i < |log| - 1;
    }
  }

  /** The safe range never holds half a pair, nor a call without an answer. */
  lemma SafeSetIsPairClosed(log: seq<Event>, candidates: set<int>, hidden: seq<int>)
    requires Dense(log) && ToolDiscipline(log)
    requires forall s :: s in hidden <==> s in SafeSet(log, candidates)
    ensures PairClosed(log, hidden)
  {
    UseNumsOk(log);
    ResultNumsOk(log);
    var uses, results := UseNums(log), ResultNums(log);
    forall i, j, id | IsUse(log, i, id) && IsResult(log, j, id)
      ensures i in hidden <==> j in hidden
    {
      assert IsUse(log, uses[id], id) && IsResult(log, results[id], id);
      forall other | other in uses && other != id
        ensures i !in Discards(uses, results, candidates, other) && j !in Discards(uses, results, candidates, other)
      {
        assert IsUse(log, uses[other], other);
        if other in results { assert IsResult(log, results[other], other); }
      }
    }
    forall i, id | i in hidden && IsUse(log, i, id)
      ensures Answered(log, id)
    {
      assert IsUse(log, uses[id], id);
      assert i !in Discards(uses, results, candidates, id);
      assert IsResult(log, results[id], id);
    }
  }

  lemma VisibleNums(log: seq<Event>, hidden: set<int>)
    requires Dense(log)
    ensures forall s :: s in Nums(Visible(log, hidden)) <==>
                        0 <= s < |log| && IsMessage(log[s].payload) && s !in hidden
  {
    var v := Visible(log, hidden);
    VisibleMembers(log, hidden);
    forall s | 0 <= s < |log| && IsMessage(log[s].payload) && s !in hidden
      ensures s in Nums(v)
    {
      assert log[s] in v;
      var k :| 0 <= k < |v| && v[k] == log[s];
      assert Nums(v)[k] == s;
    }
    forall s | s in Nums(v)
      ensures 0 <= s < |log| && IsMessage(log[s].payload) && s !in hidden
    {
      var k :| 0 <= k < |v| && Nums(v)[k] == s;
      assert v[k] in v;
      var i :| 0 <= i < |log| && log[i] == v[k];
    }
  }

  lemma HeadNums(messages: seq<Event>, k: nat)
    requires k <= |messages|
    ensures forall s :: s in Nums(messages[..k]) ==> s in Nums(messages)
  {
    forall s | s in Nums(messages[..k]) ensures s in Nums(messages) {
      var p :| 0 <= p < k && Nums(messages[..k])[p] == s;
      assert Nums(messages)[p] == s;
    }
  }

  lemma TailHidesWell(log: seq<Event>, keepRecent: nat)
    requires Dense(log) && ToolDiscipline(log)
    requires Apply(log).Success? && TailHides(log, keepRecent) != []
    ensures HidesWell(log, TailHides(log, keepRecent))
    ensures forall s :: s in TailHides(log, keepRecent) ==> s !in Hidden(log)
  {
    MessagesOfRender(log, Live(log));
    SafeRangeHidesWell(log, Visible(log, Hidden(log)), |MessageEvents(log)| - keepRecent);
  }

  lemma SafeRangeHidesWell(log: seq<Event>, messages: seq<Event>, k: nat)
    requires Dense(log) && ToolDiscipline(log)
    requires messages == Visible(log, Hidden(log)) && k <= |messages|
    ensures var hides := SafeRange(log, Nums(messages[..k]));
            && (hides != [] ==> HidesWell(log, hides))
            && forall s :: s in hides ==> s !in Hidden(log)
  {
    VisibleNums(log, Hidden(log));
    HeadNums(messages, k);
    var candidates := Nums(messages[..k]);
    SafeSetIsPairClosed(log, AsSet(candidates), SafeRange(log, candidates));
  }

  // ---- The effective stream of a log that satisfies the invariant --------------------------------

  lemma {:induction false} RenderedEvents(log: seq<Event>, live: seq<Event>, e: Event)
    requires NoneEmpty(live) && !e.payload.Summary?
    ensures e in RenderAll(log, live) <==> e in log && !IsMutation(e) && e.num !in Shadow(live)
  {
    if log != [] {
      RenderedEvents(log[..|log| - 1], live, e);
      SummaryAtIsLive(live, log[|log| - 1].num);
    }
  }

  /** Apart from summaries, the effective stream keeps the order of the log. */
  lemma {:induction false} RenderedAscending(log: seq<Event>, live: seq<Event>)
    requires NoneEmpty(live) && Dense(log)
    ensures var out := RenderAll(log, live);
            forall p, q :: 0 <= p < q < |out| && !out[p].payload.Summary? && !out[q].payload.Summary?
                           ==> out[p].num < out[q].num
  {
    if log != [] {
      var init, e := log[..|log| - 1], log[|log| - 1];
      RenderedAscending(init, live);
      var before := RenderAll(init, live);
      assert |Render(e, live)| <= 1;
      forall p | 0 <= p < |before| && !before[p].payload.Summary?
        ensures before[p].num < e.num
      {
        RenderedEvents(init, live, before[p]);
        var i :| 0 <= i < |init| && init[i] == before[p];
      }
    }
  }

  lemma PairsHiddenTogether(log: seq<Event>, i: int, id: ToolId)
    requires Inv(log) && IsUse(log, i, id)
    ensures forall j :: IsResult(log, j, id) ==> i < j && (i in Hidden(log) <==> j in Hidden(log))
    ensures !Answered(log, id) ==> i !in Hidden(log)
  {
    forall j | IsResult(log, j, id)
      ensures i < j && (i in Hidden(log) <==> j in Hidden(log))
    {
      var k :| k < j && IsUse(log, k, id);
    }
    if i in Hidden(log) {
      var c :| c in Live(log) && i in c.payload.hides;
      assert Answered(log, id);
    }
  }

  /** A call and its answer are in the effective stream together; a call without an answer is always there. */
  lemma PairsStayWhole(log: seq<Event>, i: int, id: ToolId)
    requires Inv(log) && IsUse(log, i, id)
    ensures forall j :: IsResult(log, j, id) ==> (log[i] in Effective(log) <==> log[j] in Effective(log))
    ensures !Answered(log, id) ==> log[i] in Effective(log)
  {
    ApplySucceeds(log);
    PairsHiddenTogether(log, i, id);
    RenderedEvents(log, Live(log), log[i]);
    forall j | IsResult(log, j, id)
      ensures log[i] in Effective(log) <==> log[j] in Effective(log)
    {
      RenderedEvents(log, Live(log), log[j]);
    }
  }

  // ---- What the cap hides ----------------------------------------------------------------------------

  /** `to` is `from` followed by compacts, and hides at most `extra` more. */
  ghost predicate GrownByCompacts(from: seq<Event>, to: seq<Event>, extra: set<int>) {
    && from <= to
    && (forall i, id :: IsUse(to, i, id) <==> IsUse(from, i, id))
    && (forall j, id :: IsResult(to, j, id) <==> IsResult(from, j, id))
    && Hidden(to) <= Hidden(from) + extra
  }

  ghost function CapPairs(cap: ToolOutputCap, uses: map<ToolId, int>, stream: seq<Event>): set<int> {
    if stream == [] then {}
    else
      var e := stream[|stream| - 1];
      CapPairs(cap, uses, stream[..|stream| - 1])
      + (if cap.Caps(uses, e) then {uses[e.payload.toolUseId], e.num} else {})
  }

  lemma {:induction false} InCapPairs(cap: ToolOutputCap, uses: map<ToolId, int>, stream: seq<Event>, s: int)
    requires s in CapPairs(cap, uses, stream)
    ensures exists p :: 0 <= p < |stream| && cap.Caps(uses, stream[p])
                        && (s == stream[p].num || s == uses[stream[p].payload.toolUseId])
  {
    var e := stream[|stream| - 1];
    if cap.Caps(uses, e) && (s == e.num || s == uses[e.payload.toolUseId]) {
    } else {
      InCapPairs(cap, uses, stream[..|stream| - 1], s);
    }
  }

  /** One more capped pair, neither half of it hidden so far. */
  lemma OneCapKeepsInv(log: seq<Event>, before: seq<Event>, extra: set<int>, u: int, r: int, id: ToolId, p: Payload)
    requires Inv(before) && GrownByCompacts(log, before, extra)
    requires IsUse(log, u, id) && IsResult(log, r, id)
    requires u !in Hidden(log) + extra && r !in Hidden(log) + extra
    requires p.Compact? && forall s :: s in p.hides <==> s == u || s == r
    ensures Inv(Add(before, p))
    ensures GrownByCompacts(log, Add(before, p), extra + {u, r})
  {
    hide Hidden;
    OneCapGrows(log, before, extra, {u, r}, p);
    PairHidesWell(before, p.hides, u, r, id);
    AddKeepsInv(before, p);
  }

  lemma PairHidesWell(log: seq<Event>, hides: seq<int>, u: int, r: int, id: ToolId)
    requires ToolDiscipline(log) && IsUse(log, u, id) && IsResult(log, r, id)
    requires forall s :: s in hides <==> s == u || s == r
    ensures HidesWell(log, hides)
  {
    assert u in hides && r in hides;
  }

  lemma OneCapGrows(log: seq<Event>, before: seq<Event>, extra: set<int>, pair: set<int>, p: Payload)
    requires GrownByCompacts(log, before, extra)
    requires p.Compact? && forall s :: s in p.hides ==> s in pair
    ensures GrownByCompacts(log, Add(before, p), extra + pair)
  {
    var to := Add(before, p);
    LiveAfter(before, p);
    assert forall i, id :: IsUse(to, i, id) <==> IsUse(before, i, id);
    assert forall j, id :: IsResult(to, j, id) <==> IsResult(before, j, id);
    assert Hidden(to) <= Hidden(before) + pair;
  }

  lemma {:induction false} CapKeepsInv(cap: ToolOutputCap, log: seq<Event>, k: nat)
    requires cap.Valid() && Inv(log) && k <= |Effective(log)|
    ensures var uses := UseNums(log);
            var to := cap.Walk(log, uses, Effective(log)[..k]);
            && Inv(to)
            && GrownByCompacts(log, to, CapPairs(cap, uses, Effective(log)[..k]))
  {
    hide *;
    var uses, stream := UseNums(log), Effective(log);
    if k == 0 {
      NothingCapped(cap, log, uses);
    } else {
      CapKeepsInv(cap, log, k - 1);
      WalkNext(cap, log, uses, stream, k);
      if cap.Caps(uses, stream[k - 1]) {
        var e := stream[k - 1];
        var before := cap.Walk(log, uses, stream[..k - 1]);
        CappedPair(cap, log, k - 1);
        SortedPairHolds(cap, uses[e.payload.toolUseId], e.num);
        OneCapKeepsInv(log, before, CapPairs(cap, uses, stream[..k - 1]), uses[e.payload.toolUseId], e.num,
                       e.payload.toolUseId,
                       Compact(cap.SortedPair(uses[e.payload.toolUseId], e.num), cap.Summary(before, e)));
      }
    }
  }

  lemma SortedPairHolds(cap: ToolOutputCap, u: int, r: int)
    ensures forall s :: s in cap.SortedPair(u, r) <==> s == u || s == r
  {
  }

  lemma NothingCapped(cap: ToolOutputCap, log: seq<Event>, uses: map<ToolId, int>)
    requires cap.Valid() && Inv(log)
    ensures cap.Walk(log, uses, Effective(log)[..0]) == log
    ensures GrownByCompacts(log, log, CapPairs(cap, uses, Effective(log)[..0]))
  {
    assert Effective(log)[..0] == [];
  }

  lemma WalkNext(cap: ToolOutputCap, log: seq<Event>, uses: map<ToolId, int>, stream: seq<Event>, k: nat)
    requires cap.Valid() && 0 < k <= |stream|
    ensures var before, e := cap.Walk(log, uses, stream[..k - 1]), stream[k - 1];
            && (cap.Caps(uses, e) ==> e.payload.ToolResult? && e.payload.toolUseId in uses)
            && cap.Walk(log, uses, stream[..k])
               == (if !cap.Caps(uses, e) then before
                   else Add(before, Compact(cap.SortedPair(uses[e.payload.toolUseId], e.num), cap.Summary(before, e))))
            && CapPairs(cap, uses, stream[..k])
               == (if !cap.Caps(uses, e) then CapPairs(cap, uses, stream[..k - 1])
                   else CapPairs(cap, uses, stream[..k - 1]) + {uses[e.payload.toolUseId], e.num})
  {
    assert stream[..k][..k - 1] == stream[..k - 1];
  }

  /** The pair capped at position `k` of the stream is visible, and no earlier cap took it. */
  lemma CappedPair(cap: ToolOutputCap, log: seq<Event>, k: nat)
    requires Inv(log) && k < |Effective(log)|
    requires cap.Caps(UseNums(log), Effective(log)[k])
    ensures var e := Effective(log)[k];
            var u := UseNums(log)[e.payload.toolUseId];
            var taken := Hidden(log) + CapPairs(cap, UseNums(log), Effective(log)[..k]);
            && IsUse(log, u, e.payload.toolUseId) && IsResult(log, e.num, e.payload.toolUseId)
            && u !in taken && e.num !in taken
  {
    ApplySucceeds(log);
    UseNumsOk(log);
    var stream, uses := Effective(log), UseNums(log);
    RenderedAscending(log, Live(log));
    forall q | 0 <= q <= k && cap.Caps(uses, stream[q])
      ensures var id := stream[q].payload.toolUseId;
              && IsResult(log, stream[q].num, id) && IsUse(log, uses[id], id)
              && stream[q].num !in Hidden(log) && uses[id] !in Hidden(log)
    {
      RenderedEvents(log, Live(log), stream[q]);
      var j :| 0 <= j < |log| && log[j] == stream[q];
      var id := stream[q].payload.toolUseId;
      assert IsResult(log, j, id);
      PairsStayWhole(log, uses[id], id);
      RenderedEvents(log, Live(log), log[uses[id]]);
    }
    var id := stream[k].payload.toolUseId;
    forall s | s in CapPairs(cap, uses, stream[..k])
      ensures s != uses[id] && s != stream[k].num
    {
      InCapPairs(cap, uses, stream[..k], s);
      var q :| 0 <= q < k && cap.Caps(uses, stream[q])
            && (s == stream[q].num || s == uses[stream[q].payload.toolUseId]);
      assert stream[q].num < stream[k].num;
      if stream[q].payload.toolUseId == id { assert IsResult(log, stream[q].num, id); }
    }
  }

  // ---- Every reachable log ----------------------------------------------------------------------------

  lemma StepKeepsInv(log: seq<Event>, step: Step)
    requires Inv(log) && Enabled(log, step)
    ensures Inv(Do(log, step))
  {
    ApplySucceeds(log);
    match step
    case Note(p) => AddKeepsInv(log, p);
    case Call(id, name, args) => AddKeepsInv(log, ToolUse(id, name, args));
    case Answer(id, output, error) => AddKeepsInv(log, ToolResult(id, output, error));
    case Undo(n) => AddKeepsInv(log, Revert(n));
    case RunMarkerTail(s) =>
      if TailHides(log, s.keepRecent) != [] {
        TailHidesWell(log, s.keepRecent);
        var hides := TailHides(log, s.keepRecent);
        AddKeepsInv(log, Compact(hides, Text.ReplaceAll(s.format, "$N", Text.IntText(|hides|))));
      }
    case RunTokenMarkerTail(s) =>
      if TailHides(log, s.keepRecent) != [] {
        TailHidesWell(log, s.keepRecent);
        var hides := TailHides(log, s.keepRecent);
        AddKeepsInv(log, Compact(hides, s.Summary(|hides|, Tokens(MessageEvents(log)))));
      }
    case RunToolOutputCap(s) =>
      var stream := Effective(log);
      assert stream[..|stream|] == stream;
      CapKeepsInv(s, log, |stream|);
  }

  lemma {:induction false} StepsKeepInv(from: seq<Event>, steps: seq<Step>, to: seq<Event>)
    requires Inv(from) && Takes(from, steps, to)
    ensures Inv(to)
    decreases |steps|
  {
    if steps != [] {
      StepKeepsInv(from, steps[0]);
      StepsKeepInv(Do(from, steps[0]), steps[1..], to);
    }
  }

  /** Every reachable log satisfies the invariant, so the resolution never fails on it. */
  lemma ReachableInv(log: seq<Event>)
    requires Reachable(log)
    ensures Inv(log)
    ensures Apply(log).Success?
  {
    var steps :| Takes([], steps, log);
    assert Inv([]);
    StepsKeepInv([], steps, log);
    ApplySucceeds(log);
  }
}
