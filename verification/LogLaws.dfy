/** The laws of the effective stream on every reachable log: whole pairs, one summary a compact, order. */
module LogLaws {
  import opened Wrappers
  import opened Events
  import opened Mutations
  import opened LogHistory

  // ---- Pairs, summaries and order ----------------------------------------------------------------

  /** Tool pairs are shown or hidden whole, and an open call is never hidden, in every reachable log. */
  lemma ReachablePairsStayWhole(log: seq<Event>, i: int, id: ToolId)
    requires Reachable(log) && IsUse(log, i, id)
    ensures Apply(log).Success?
    ensures forall j :: IsResult(log, j, id) ==>
                          j > i && (log[i] in Apply(log).value <==> log[j] in Apply(log).value)
    ensures !Answered(log, id) ==> log[i] in Apply(log).value
  {
    ReachableInv(log);
    ApplySucceeds(log);
    PairsStayWhole(log, i, id);
    forall j | IsResult(log, j, id) ensures j > i {
      var k :| k < j && IsUse(log, k, id);
    }
  }

  lemma {:induction false} SummaryAtMeets(live: seq<Event>, c: Event)
    requires NoneEmpty(live) && c in live
    ensures var s := SummaryAt(live, MinOf(c.payload.hides));
            s.Some? && s.value in live && MinOf(s.value.payload.hides) == MinOf(c.payload.hides)
  {
    var init, last := live[..|live| - 1], live[|live| - 1];
    if MinOf(last.payload.hides) != MinOf(c.payload.hides) {
      assert c in init;
      SummaryAtMeets(init, c);
    }
  }

  lemma SummaryAtMin(live: seq<Event>, s: int)
    requires NoneEmpty(live) && SummaryAt(live, s).Some?
    ensures var c := SummaryAt(live, s).value;
            c in live && c.payload.Compact? && c.payload.hides != [] && MinOf(c.payload.hides) == s
  {
    SummaryAtIsLive(live, s);
    if MinOf(live[|live| - 1].payload.hides) != s { SummaryAtMin(live[..|live| - 1], s); }
  }

  lemma {:induction false} RenderedSummaries(log: seq<Event>, live: seq<Event>, c: Event)
    requires NoneEmpty(live) && c in live
    requires forall e :: e in log ==> !e.payload.Summary?
    requires forall d :: d in live && d.num == c.num ==> d == c
    requires Synthesize(c) in RenderAll(log, live)
    ensures exists e :: e in log && e.num == MinOf(c.payload.hides)
  {
    var init, e := log[..|log| - 1], log[|log| - 1];
    if Synthesize(c) in RenderAll(init, live) {
      RenderedSummaries(init, live, c);
    } else {
      assert Synthesize(c) in Render(e, live);
      SummaryAtIsLive(live, e.num);
      SummaryAtMin(live, e.num);
    }
  }

  /** Each compact in force shows one summary, exactly where its lowest hidden event stood. */
  lemma {:induction false} OneSummaryPerCompact(log: seq<Event>, c: Event)
    requires Reachable(log) && c in Live(log)
    ensures c.payload.Compact? && c.payload.hides != [] && NoneEmpty(Live(log)) && Apply(log).Success?
    ensures var m, live := MinOf(c.payload.hides), Live(log);
            && 0 <= m < c.num < |log|
            && Apply(log).value == RenderAll(log[..m], live) + [Event(c.num, Summary(c.payload.summary))]
               + RenderAll(log[m + 1..], live)
            && Event(c.num, Summary(c.payload.summary)) !in RenderAll(log[..m], live)
            && Event(c.num, Summary(c.payload.summary)) !in RenderAll(log[m + 1..], live)
  {
    ReachableInv(log);
    LowestIsTheirs(log, c);
    SummaryStands(log, Live(log), c);
  }

  lemma LowestIsTheirs(log: seq<Event>, c: Event)
    requires Inv(log) && c in Live(log)
    ensures c.payload.Compact? && c.payload.hides != [] && NoneEmpty(Live(log))
    ensures var m := MinOf(c.payload.hides);
            && 0 <= m < c.num < |log|
            && !IsMutation(log[m])
            && SummaryAt(Live(log), m) == Some(c)
    ensures forall d :: d in Live(log) && d.num == c.num ==> d == c
  {
    ApplySucceeds(log);
    var m := MinOf(c.payload.hides);
    SummaryAtMeets(Live(log), c);
    var s := SummaryAt(Live(log), m).value;
    assert m in s.payload.hides && m in c.payload.hides;
    forall d | d in Live(log) && d.num == c.num ensures d == c {
      var i :| 0 <= i < |log| && log[i] == d;
      var k :| 0 <= k < |log| && log[k] == c;
    }
  }

  lemma SummaryStands(log: seq<Event>, live: seq<Event>, c: Event)
    requires Dense(log) && NoneEmpty(live) && c in live
    requires forall e :: e in log ==> !e.payload.Summary?
    requires forall d :: d in live && d.num == c.num ==> d == c
    requires var m := MinOf(c.payload.hides);
             0 <= m < |log| && !IsMutation(log[m]) && SummaryAt(live, m) == Some(c)
    ensures var m := MinOf(c.payload.hides);
            && RenderAll(log, live) == RenderAll(log[..m], live) + [Synthesize(c)] + RenderAll(log[m + 1..], live)
            && Synthesize(c) !in RenderAll(log[..m], live)
            && Synthesize(c) !in RenderAll(log[m + 1..], live)
  {
    var m := MinOf(c.payload.hides);
    SplitAt(log, m, live);
    if Synthesize(c) in RenderAll(log[..m], live) { RenderedSummaries(log[..m], live, c); }
    if Synthesize(c) in RenderAll(log[m + 1..], live) { RenderedSummaries(log[m + 1..], live, c); }
  }

  lemma SplitAt(log: seq<Event>, m: int, live: seq<Event>)
    requires NoneEmpty(live) && 0 <= m < |log|
    ensures RenderAll(log, live)
         == RenderAll(log[..m], live) + Render(log[m], live) + RenderAll(log[m + 1..], live)
  {
    assert log == log[..m + 1] + log[m + 1..];
    RenderAllConcat(log[..m + 1], log[m + 1..], live);
    assert log[..m + 1][..m] == log[..m];
  }

  /** No two compacts in force hide the same event. */
  lemma CompactsInForceAreDisjoint(log: seq<Event>, c: Event, d: Event)
    requires Reachable(log) && c in Live(log) && d in Live(log) && c != d
    ensures c.payload.Compact? && d.payload.Compact?
    ensures forall s :: s in c.payload.hides ==> s !in d.payload.hides
  {
    ReachableInv(log);
  }

  // ---- The effective stream in terms of the log alone ----------------------------------------------

  lemma InForce(log: seq<Event>, c: Event)
    ensures c in Live(log) <==> c in log && c.payload.Compact? && forall r :: r in log ==> r.payload != Revert(c.num)
  {
    if r :| r in log && r.payload == Revert(c.num) { assert r.payload.revokes in Revoked(log); }
    if c.num in Revoked(log) {
      var r :| r in log && r.payload.Revert? && r.payload.revokes == c.num;
      assert r.payload == Revert(c.num);
    }
  }

  /** Apart from summaries, the stream shows exactly the events that are no mutations and that no compact hides. */
  lemma ShownExactly(log: seq<Event>, e: Event)
    requires Reachable(log) && !e.payload.Summary?
    ensures Apply(log).Success?
    ensures e in Apply(log).value
       <==> && e in log && !e.payload.Compact? && !e.payload.Revert?
            && forall c :: c in log && c.payload.Compact? && (forall r :: r in log ==> r.payload != Revert(c.num)) ==>
                 e.num !in c.payload.hides
  {
    ReachableInv(log);
    ApplySucceeds(log);
    RenderedEvents(log, Live(log), e);
    forall c ensures c in Live(log) <==>
      c in log && c.payload.Compact? && forall r :: r in log ==> r.payload != Revert(c.num)
    {
      InForce(log, c);
    }
  }

  /**
    The summary of a compact in force is in the stream exactly once, with the compact's number and text. The
    events before it are those that stood before the lowest event the compact hides.
    */
  lemma SummaryShownInPlace(log: seq<Event>, c: Event) returns (p: nat)
    requires Reachable(log) && c in log && c.payload.Compact? && forall r :: r in log ==> r.payload != Revert(c.num)
    ensures Apply(log).Success? && p < |Apply(log).value|
    ensures Apply(log).value[p] == Event(c.num, Summary(c.payload.summary))
    ensures forall q :: 0 <= q < |Apply(log).value| && q != p ==>
              Apply(log).value[q] != Event(c.num, Summary(c.payload.summary))
    ensures exists m :: m in c.payload.hides && (forall x :: x in c.payload.hides ==> m <= x)
              && forall q :: 0 <= q < |Apply(log).value| && !Apply(log).value[q].payload.Summary? ==>
                   (q < p <==> Apply(log).value[q].num < m)
  {
    hide Apply, RenderAll, Live, Reachable;
    InForce(log, c);
    OneSummaryPerCompact(log, c);
    DenseLog(log);
    var m, live, stream := MinOf(c.payload.hides), Live(log), Apply(log).value;
    p := |RenderAll(log[..m], live)|;
    SidesOf(log, m, live, stream, Event(c.num, Summary(c.payload.summary)));
    assert stream[p] == Event(c.num, Summary(c.payload.summary));
  }

  lemma DenseLog(log: seq<Event>)
    requires Reachable(log)
    ensures Dense(log)
  {
    ReachableInv(log);
  }

  lemma SidesOf(log: seq<Event>, m: int, live: seq<Event>, stream: seq<Event>, e: Event)
    requires Dense(log) && NoneEmpty(live) && 0 <= m < |log|
    requires stream == RenderAll(log[..m], live) + [e] + RenderAll(log[m + 1..], live)
    requires e !in RenderAll(log[..m], live) && e !in RenderAll(log[m + 1..], live) && e.payload.Summary?
    ensures var p := |RenderAll(log[..m], live)|;
            forall q :: 0 <= q < |stream| && q != p ==>
              stream[q] != e && (!stream[q].payload.Summary? ==> (q < p <==> stream[q].num < m))
  {
    hide RenderAll;
    var before, after := RenderAll(log[..m], live), RenderAll(log[m + 1..], live);
    assert log[0..m] == log[..m] && log[m + 1..|log|] == log[m + 1..];
    var p := |before|;
    forall q | 0 <= q < |stream| && q != p
      ensures stream[q] != e && (!stream[q].payload.Summary? ==> (q < p <==> stream[q].num < m))
    {
      if q < p {
        assert stream[q] == before[q] && before[q] in before;
        if !stream[q].payload.Summary? { ShownNumber(log, 0, m, live, stream[q]); }
      } else {
        assert stream[q] == after[q - p - 1] && after[q - p - 1] in after;
        if !stream[q].payload.Summary? { ShownNumber(log, m + 1, |log|, live, stream[q]); }
      }
    }
  }

  lemma ShownNumber(log: seq<Event>, from: nat, to: nat, live: seq<Event>, e: Event)
    requires Dense(log) && NoneEmpty(live) && from <= to <= |log|
    requires !e.payload.Summary? && e in RenderAll(log[from..to], live)
    ensures from <= e.num < to
  {
    hide RenderAll;
    RenderedEvents(log[from..to], live, e);
    var i :| 0 <= i < to - from && log[from..to][i] == e;
    assert log[from + i] == e;
  }

  function Originals(stream: seq<Event>): seq<Event> {
    if stream == [] then []
    else
      var e := stream[|stream| - 1];
      Originals(stream[..|stream| - 1]) + (if e.payload.Summary? then [] else [e])
  }

  /** The part of the log that is neither a mutation nor hidden. */
  function Unhidden(log: seq<Event>, hidden: set<int>): seq<Event> {
    if log == [] then []
    else
      var e := log[|log| - 1];
      Unhidden(log[..|log| - 1], hidden) + (if !IsMutation(e) && e.num !in hidden then [e] else [])
  }

  lemma {:induction false} OriginalsConcat(a: seq<Event>, b: seq<Event>)
    ensures Originals(a + b) == Originals(a) + Originals(b)
  {
    if b == [] {
      assert a + b == a;
    } else {
      assert (a + b)[..|a + b| - 1] == a + b[..|b| - 1];
      OriginalsConcat(a, b[..|b| - 1]);
    }
  }

  lemma OriginalsOfOne(e: Event, live: seq<Event>)
    requires NoneEmpty(live) && !e.payload.Summary?
    ensures Originals(Render(e, live)) == if !IsMutation(e) && e.num !in Shadow(live) then [e] else []
  {
    SummaryAtIsLive(live, e.num);
    var out := Render(e, live);
    if out != [] {
      assert out == [out[0]] && out[..0] == [];
    }
  }

  /** Dropping the summaries leaves the unhidden events, each once and in log order. */
  lemma {:induction false} UnhiddenKeepOrder(log: seq<Event>, live: seq<Event>)
    requires NoneEmpty(live) && forall e :: e in log ==> !e.payload.Summary?
    ensures Originals(RenderAll(log, live)) == Unhidden(log, Shadow(live))
  {
    if log != [] {
      var init, e := log[..|log| - 1], log[|log| - 1];
      assert e in log;
      UnhiddenKeepOrder(init, live);
      OriginalsOfOne(e, live);
      OriginalsConcat(RenderAll(init, live), Render(e, live));
    }
  }

  lemma ReachableKeepsOrder(log: seq<Event>)
    requires Reachable(log)
    ensures Apply(log).Success? && Originals(Apply(log).value) == Unhidden(log, Shadow(Live(log)))
  {
    ReachableInv(log);
    UnhiddenKeepOrder(log, Live(log));
  }
}
