/**
  Resolving `compact` and `revert` events into the effective stream: a compact that no revert
  names hides the events it replaces and puts one summary where the lowest of them stood.
  */
module Mutations {
  import opened Wrappers
  import opened Events

  /** `min` of an empty replacement list is the one error of the resolution. */
  datatype MutationError = EmptyReplaces

  predicate IsMutation(e: Event) {
    e.payload.Compact? || e.payload.Revert?
  }

  function Revoked(log: seq<Event>): set<int> {
    set e | e in log && e.payload.Revert? :: e.payload.revokes
  }

  function LiveAmong(log: seq<Event>, revoked: set<int>): (live: seq<Event>)
    ensures forall c :: c in live <==> c in log && c.payload.Compact? && c.num !in revoked
  {
    if log == [] then []
    else
      var last := log[|log| - 1];
      LiveAmong(log[..|log| - 1], revoked)
      + (if last.payload.Compact? && last.num !in revoked then [last] else [])
  }

  /** The compacts in force. */
  function Live(log: seq<Event>): (live: seq<Event>)
    ensures forall c :: c in live <==> c in log && c.payload.Compact? && c.num !in Revoked(log)
  {
    LiveAmong(log, Revoked(log))
  }

  function MinOf(s: seq<int>): (m: int)
    requires s != []
    ensures m in s && forall x :: x in s ==> m <= x
  {
    if |s| == 1 then s[0]
    else
      var m := MinOf(s[1..]);
      assert s == [s[0]] + s[1..];
      if s[0] <= m then s[0] else m
  }

  predicate NoneEmpty(live: seq<Event>) {
    forall c :: c in live ==> c.payload.Compact? && c.payload.hides != []
  }

  function Shadow(live: seq<Event>): set<int> {
    set c, s | c in live && c.payload.Compact? && s in c.payload.hides :: s
  }

  /** The summary standing at `s`: the last compact whose lowest replaced event is `s`. */
  function SummaryAt(live: seq<Event>, s: int): Option<Event>
    requires NoneEmpty(live)
  {
    if live == [] then None
    else
      var last := live[|live| - 1];
      if MinOf(last.payload.hides) == s then Some(last) else SummaryAt(live[..|live| - 1], s)
  }

  function Synthesize(compact: Event): Event
    requires compact.payload.Compact?
  {
    Event(compact.num, Summary(compact.payload.summary))
  }

  /** What one log entry contributes to the effective stream. */
  function Render(e: Event, live: seq<Event>): seq<Event>
    requires NoneEmpty(live)
  {
    if IsMutation(e) then []
    else
      match SummaryAt(live, e.num)
      case Some(c) => SummaryAtIsLive(live, e.num); [Synthesize(c)]
      case None => if e.num in Shadow(live) then [] else [e]
  }

  function RenderAll(log: seq<Event>, live: seq<Event>): seq<Event>
    requires NoneEmpty(live)
  {
    if log == [] then []
    else RenderAll(log[..|log| - 1], live) + Render(log[|log| - 1], live)
  }

  /** The effective stream of a log. */
  function Apply(log: seq<Event>): Result<seq<Event>, MutationError> {
    var live := Live(log);
    if NoneEmpty(live) then Success(RenderAll(log, live)) else Failure(EmptyReplaces)
  }

  lemma SummaryAtIsLive(live: seq<Event>, s: int)
    requires NoneEmpty(live)
    ensures SummaryAt(live, s).Some? ==>
              var c := SummaryAt(live, s).value;
              c in live && c.payload.Compact? && s in c.payload.hides && s in Shadow(live)
  {
    if live == [] {
    } else {
      var rest := live[..|live| - 1];
      assert forall c :: c in rest ==> c in live;
      if MinOf(live[|live| - 1].payload.hides) != s { SummaryAtIsLive(rest, s); }
    }
  }

  // ---- The loops of the implementation -------------------------------------------------------

  /** First pass: the shadowed sequence numbers and the summary standing at each lowest one. */
  method Analyze(log: seq<Event>) returns (r: Result<(set<int>, map<int, Event>), MutationError>)
    ensures r.Success? <==> NoneEmpty(Live(log))
    ensures r.Success? ==> r.value.0 == Shadow(Live(log))
    ensures r.Success? ==> forall s :: match SummaryAt(Live(log), s)
                                       case Some(c) => s in r.value.1 && r.value.1[s] == c
                                       case None => s !in r.value.1
  {
    var compacts := Live(log);
    var shadowed: set<int> := {};
    var summaryAt: map<int, Event> := map[];
    var i := 0;
    while i < |compacts|
      invariant 0 <= i <= |compacts|
      invariant NoneEmpty(compacts[..i])
      invariant shadowed == Shadow(compacts[..i])
      invariant forall s :: match SummaryAt(compacts[..i], s)
                            case Some(c) => s in summaryAt && summaryAt[s] == c
                            case None => s !in summaryAt
    {
      var c := compacts[i];
      assert c in compacts;
      if c.payload.hides == [] { return Failure(EmptyReplaces); }
      assert compacts[..i + 1] == compacts[..i] + [c];
      assert compacts[..i + 1][..i] == compacts[..i];
      shadowed := shadowed + set s | s in c.payload.hides;
      summaryAt := summaryAt[MinOf(c.payload.hides) := c];
      i := i + 1;
    }
    assert compacts[..i] == compacts;
    return Success((shadowed, summaryAt));
  }

  /** Second pass: one walk of the log that replaces, skips or keeps each event. */
  method ApplyLog(log: seq<Event>) returns (r: Result<seq<Event>, MutationError>)
    ensures r == Apply(log)
  {
    var state := Analyze(log);
    if state.Failure? { return Failure(EmptyReplaces); }
    ghost var live := Live(log);
    var out: seq<Event> := [];
    var i := 0;
    while i < |log|
      invariant 0 <= i <= |log|
      invariant out == RenderAll(log[..i], live)
    {
      var evt := log[i];
      assert log[..i + 1][..i] == log[..i];
      SummaryAtIsLive(live, evt.num);
      if !IsMutation(evt) {
        if evt.num in state.value.1 {
          out := out + [Synthesize(state.value.1[evt.num])];
        } else if evt.num !in state.value.0 {
          out := out + [evt];
        }
      }
      i := i + 1;
    }
    assert log[..i] == log;
    return Success(out);
  }

  // ---- Laws of the resolution, for every log --------------------------------------------------

  lemma LiveAmongConcat(a: seq<Event>, b: seq<Event>, revoked: set<int>)
    ensures LiveAmong(a + b, revoked) == LiveAmong(a, revoked) + LiveAmong(b, revoked)
  {
    if b == [] {
      assert a + b == a;
    } else {
      var init := b[..|b| - 1];
      assert (a + b)[..|a + b| - 1] == a + init;
      LiveAmongConcat(a, init, revoked);
    }
  }

  lemma RenderAllConcat(a: seq<Event>, b: seq<Event>, live: seq<Event>)
    requires NoneEmpty(live)
    ensures RenderAll(a + b, live) == RenderAll(a, live) + RenderAll(b, live)
  {
    if b == [] {
      assert a + b == a;
    } else {
      var init := b[..|b| - 1];
      assert (a + b)[..|a + b| - 1] == a + init;
      RenderAllConcat(a, init, live);
      var last := Render(b[|b| - 1], live);
      assert RenderAll(a, live) + (RenderAll(init, live) + last) == RenderAll(a, live) + RenderAll(init, live) + last;
    }
  }

  /** Resolving an already resolved stream changes nothing. */
  lemma {:induction false} ApplyIdempotent(log: seq<Event>)
    requires Apply(log).Success?
    ensures Apply(Apply(log).value) == Apply(log)
  {
    var out := Apply(log).value;
    RenderedHasNoMutation(log, Live(log));
    NothingLive(out, Revoked(out));
    RenderNothingLive(out);
  }

  lemma {:induction false} RenderedHasNoMutation(log: seq<Event>, live: seq<Event>)
    requires NoneEmpty(live)
    ensures forall e :: e in RenderAll(log, live) ==> !IsMutation(e)
  {
    if log != [] {
      RenderedHasNoMutation(log[..|log| - 1], live);
      SummaryAtIsLive(live, log[|log| - 1].num);
    }
  }

  lemma {:induction false} RenderNothingLive(log: seq<Event>)
    requires forall e :: e in log ==> !IsMutation(e)
    ensures RenderAll(log, []) == log
  {
    if log != [] {
      var init := log[..|log| - 1];
      RenderNothingLive(init);
      assert log == init + [log[|log| - 1]];
    }
  }

  lemma {:induction false} NothingLive(log: seq<Event>, revoked: set<int>)
    requires forall e :: e in log && e.payload.Compact? ==> e.num in revoked
    ensures LiveAmong(log, revoked) == []
  {
    if log != [] {
      assert log[|log| - 1] in log;
      NothingLive(log[..|log| - 1], revoked);
    }
  }

  /** Appending any compact and then the revert that names it restores the effective stream. */
  lemma {:induction false} CompactThenRevertIsNeutral(log: seq<Event>, hides: seq<int>, summary: string)
    requires Dense(log)
    ensures var n := |log|;
            Apply(log + [Event(n, Compact(hides, summary)), Event(n + 1, Revert(n))]) == Apply(log)
  {
    var n := |log|;
    var tail := [Event(n, Compact(hides, summary)), Event(n + 1, Revert(n))];
    assert forall e :: e in log ==> e.num != n by {
      forall e | e in log ensures e.num != n {
        var i :| 0 <= i < |log| && log[i] == e;
      }
    }
    CompactThenRevertKeepsLive(log, tail, n);
    MutationsAppendNothing(log, tail);
  }

  lemma {:induction false} MutationsAppendNothing(log: seq<Event>, tail: seq<Event>)
    requires forall e :: e in tail ==> IsMutation(e)
    requires Live(log + tail) == Live(log)
    ensures Apply(log + tail) == Apply(log)
  {
    if Apply(log).Success? {
      var live := Live(log);
      RenderAllConcat(log, tail, live);
      RenderMutations(tail, live);
      assert RenderAll(log, live) + [] == RenderAll(log, live);
    }
  }

  lemma {:induction false} CompactThenRevertKeepsLive(log: seq<Event>, tail: seq<Event>, n: int)
    requires forall e :: e in log ==> e.num != n
    requires |tail| == 2 && tail[0].payload.Compact? && tail[0].num == n && tail[1].payload == Revert(n)
    ensures Live(log + tail) == Live(log)
  {
    assert Revoked(log + tail) == Revoked(log) + {n} by {
      assert tail[1] in log + tail;
    }
    LiveAmongConcat(log, tail, Revoked(log) + {n});
    NothingLive(tail, Revoked(log) + {n});
    LiveIgnoresForeign(log, Revoked(log), n);
  }

  lemma {:induction false} RenderMutations(log: seq<Event>, live: seq<Event>)
    requires NoneEmpty(live)
    requires forall e :: e in log ==> IsMutation(e)
    ensures RenderAll(log, live) == []
  {
    if log != [] {
      assert log[|log| - 1] in log;
      RenderMutations(log[..|log| - 1], live);
    }
  }

  lemma {:induction false} LiveIgnoresForeign(log: seq<Event>, revoked: set<int>, n: int)
    requires forall e :: e in log ==> e.num != n
    ensures LiveAmong(log, revoked + {n}) == LiveAmong(log, revoked)
  {
    if log != [] {
      assert log[|log| - 1] in log;
      LiveIgnoresForeign(log[..|log| - 1], revoked, n);
    }
  }
}
