/**
  The tail strategies reach a fixpoint in one step: what a run leaves visible before the kept tail,
  a second run leaves visible too.
  */
module TailFixpoint {
  import opened Wrappers
  import opened Events
  import opened JsonValues
  import opened Mutations
  import opened Compaction
  import opened Strategies
  import opened LogHistory
  import Text

  /** The events whose number is not in `hides`. */
  function Without(events: seq<Event>, hides: set<int>): seq<Event> {
    if events == [] then []
    else
      var e := events[|events| - 1];
      Without(events[..|events| - 1], hides) + (if e.num in hides then [] else [e])
  }

  lemma {:induction false} WithoutMembers(events: seq<Event>, hides: set<int>)
    ensures forall e :: e in Without(events, hides) <==> e in events && e.num !in hides
  {
    if events != [] {
      WithoutMembers(events[..|events| - 1], hides);
    }
  }

  lemma {:induction false} WithoutConcat(a: seq<Event>, b: seq<Event>, hides: set<int>)
    ensures Without(a + b, hides) == Without(a, hides) + Without(b, hides)
  {
    if b == [] {
      assert a + b == a;
    } else {
      assert (a + b)[..|a + b| - 1] == a + b[..|b| - 1];
      WithoutConcat(a, b[..|b| - 1], hides);
    }
  }

  lemma {:induction false} WithoutNone(events: seq<Event>, hides: set<int>)
    requires forall e :: e in events ==> e.num !in hides
    ensures Without(events, hides) == events
  {
    if events != [] {
      var init, e := events[..|events| - 1], events[|events| - 1];
      assert events == init + [e] && e in events;
      WithoutNone(init, hides);
    }
  }

  lemma WithoutLast(events: seq<Event>, e: Event, hides: set<int>)
    ensures Without(events + [e], hides) == Without(events, hides) + (if e.num in hides then [] else [e])
  {
    assert (events + [e])[..|events|] == events;
  }

  lemma {:induction false} VisibleWithMoreHidden(log: seq<Event>, hidden: set<int>, more: set<int>)
    ensures Visible(log, hidden + more) == Without(Visible(log, hidden), more)
  {
    if log != [] {
      var init, e := log[..|log| - 1], log[|log| - 1];
      VisibleWithMoreHidden(init, hidden, more);
      WithoutLast(Visible(init, hidden), e, more);
      assert Visible(init, hidden) + [] == Visible(init, hidden);
    }
  }

  predicate NumsAscend(events: seq<Event>) {
    forall p, q :: 0 <= p < q < |events| ==> events[p].num < events[q].num
  }

  lemma {:induction false} VisibleAscends(log: seq<Event>, hidden: set<int>)
    requires Dense(log)
    ensures NumsAscend(Visible(log, hidden))
  {
    if log != [] {
      var init := log[..|log| - 1];
      VisibleAscends(init, hidden);
      VisibleMembers(init, hidden);
      forall e | e in Visible(init, hidden) ensures e.num < |log| - 1 {
        var i :| 0 <= i < |init| && init[i] == e;
      }
    }
  }

  lemma ShadowLast(live: seq<Event>, c: Event)
    requires c.payload.Compact?
    ensures Shadow(live + [c]) == Shadow(live) + AsSet(c.payload.hides)
  {
    var all := live + [c];
    assert c in all && forall d :: d in all <==> d in live || d == c;
    var both := Shadow(live) + AsSet(c.payload.hides);
    forall s ensures s in Shadow(all) <==> s in both {
      if s in Shadow(live) {
        var d :| d in live && d.payload.Compact? && s in d.payload.hides;
        assert d in all;
      }
    }
  }

  /** Hiding messages by a compact in force removes exactly them from the message list. */
  lemma MessagesAfterCompact(log: seq<Event>, hides: seq<int>, summary: string)
    requires Apply(log).Success? && |log| !in Revoked(log) && hides != []
    ensures var log' := AppendCompact(log, hides, summary);
            Apply(log').Success? && MessageEvents(log') == Without(MessageEvents(log), AsSet(hides))
  {
    var hidden := AsSet(hides);
    var c := Compact(hides, summary);
    var log' := Add(log, c);
    LiveAfter(log, c);
    var live, live' := Live(log), Live(log');
    assert live' == live + [Event(|log|, c)];
    ShadowLast(live, Event(|log|, c));
    MessagesOfRender(log, live);
    MessagesOfRender(log', live');
    assert log'[..|log|] == log;
    VisibleWithMoreHidden(log, Shadow(live), hidden);
  }

  lemma TailNumsAboveHead(before: seq<Event>, k: nat, hides: seq<int>)
    requires NumsAscend(before) && k <= |before|
    requires forall s :: s in hides ==> s in Nums(before[..k])
    ensures forall e :: e in before[k..] ==> e.num !in hides
  {
    forall e | e in before[k..] ensures e.num !in hides {
      var q :| k <= q < |before| && before[q] == e;
      forall p | 0 <= p < k ensures Nums(before[..k])[p] != e.num {
        assert before[p].num < before[q].num;
      }
    }
  }

  /** Hiding part of the head of an ascending list leaves its tail. */
  lemma WithoutKeepsTail(before: seq<Event>, k: nat, hides: seq<int>)
    requires NumsAscend(before) && k <= |before|
    requires forall s :: s in hides ==> s in Nums(before[..k])
    ensures Without(before, AsSet(hides)) == Without(before[..k], AsSet(hides)) + before[k..]
  {
    assert before == before[..k] + before[k..];
    WithoutConcat(before[..k], before[k..], AsSet(hides));
    TailNumsAboveHead(before, k, hides);
    WithoutNone(before[k..], AsSet(hides));
  }

  lemma TailHidesFromHead(log: seq<Event>, keep: nat)
    requires Apply(log).Success? && TailHides(log, keep) != []
    ensures var before := MessageEvents(log);
            |before| >= keep && forall s :: s in TailHides(log, keep) ==> s in Nums(before[..|before| - keep])
  {
  }

  lemma MessagesAscend(log: seq<Event>)
    requires Dense(log) && Apply(log).Success?
    ensures NumsAscend(MessageEvents(log))
  {
    MessagesOfRender(log, Live(log));
    VisibleAscends(log, Shadow(Live(log)));
  }

  /** What one tail compaction does to the message list: it thins the head and leaves the tail. */
  lemma MessagesAfterTail(log: seq<Event>, keep: nat, summary: string)
    requires Dense(log) && Apply(log).Success? && |log| !in Revoked(log)
    requires TailHides(log, keep) != []
    ensures var hides := TailHides(log, keep);
            var log' := AppendCompact(log, hides, summary);
            var before := MessageEvents(log);
            && Apply(log').Success?
            && |before| >= keep
            && MessageEvents(log') == Without(before[..|before| - keep], AsSet(hides)) + before[|before| - keep..]
  {
    hide Apply, TailHides, MessageEvents, Without, Revoked, NumsAscend;
    TailHidesFromHead(log, keep);
    var hides := TailHides(log, keep);
    MessagesAfterCompact(log, hides, summary);
    MessagesAscend(log);
    WithoutKeepsTail(MessageEvents(log), |MessageEvents(log)| - keep, hides);
  }

  /** The pairs that kept an event out of the safe range still do when only unsafe candidates are left. */
  lemma LeftoverIsUnsafe(log: seq<Event>, log': seq<Event>, candidates: set<int>, left: set<int>)
    requires UseNums(log') == UseNums(log) && ResultNums(log') == ResultNums(log)
    requires left <= candidates - SafeSet(log, candidates)
    ensures SafeSet(log', left) == {}
  {
    var uses, results := UseNums(log), ResultNums(log);
    forall s | s in left ensures s !in SafeSet(log', left) {
      var id :| id in uses && s in Discards(uses, results, candidates, id);
      assert s in Discards(uses, results, left, id);
    }
  }

  lemma NumsWithout(head: seq<Event>, hides: set<int>)
    ensures forall s :: s in Nums(Without(head, hides)) ==> s in Nums(head) && s !in hides
  {
    var left := Without(head, hides);
    WithoutMembers(head, hides);
    forall s | s in Nums(left) ensures s in Nums(head) && s !in hides {
      var k :| 0 <= k < |left| && Nums(left)[k] == s;
      assert left[k] in left;
      var p :| 0 <= p < |head| && head[p] == left[k];
      assert Nums(head)[p] == s;
    }
  }

  lemma {:induction false} SortNothing(nums: seq<int>, keep: set<int>)
    requires forall n :: n in nums ==> n !in keep
    ensures SortKept(nums, keep) == []
  {
    if nums != [] {
      assert nums[0] in nums;
      SortNothing(nums[1..], keep);
    }
  }

  lemma ToolPairsAfterCompact(log: seq<Event>, p: Payload)
    requires p.Compact?
    ensures UseNums(Add(log, p)) == UseNums(log) && ResultNums(Add(log, p)) == ResultNums(log)
  {
    assert Add(log, p)[..|log|] == log;
  }

  lemma TailFixpointCore(log: seq<Event>, keep: nat, summary: string)
    requires Dense(log) && Apply(log).Success? && |log| !in Revoked(log)
    requires TailHides(log, keep) != []
    ensures var log' := AppendCompact(log, TailHides(log, keep), summary);
            Apply(log').Success? && TailHides(log', keep) == []
  {
    MessagesAfterTail(log, keep, summary);
    var hides := TailHides(log, keep);
    var log' := AppendCompact(log, hides, summary);
    ToolPairsAfterCompact(log, Compact(hides, summary));
    var before, after := MessageEvents(log), MessageEvents(log');
    var head := before[..|before| - keep];
    var left := Without(head, AsSet(hides));
    NumsWithout(head, AsSet(hides));
    LeftoverIsUnsafe(log, log', AsSet(Nums(head)), AsSet(Nums(left)));
    NothingLeft(log', keep, left, before[|before| - keep..]);
  }

  lemma NothingLeft(log: seq<Event>, keep: nat, left: seq<Event>, tail: seq<Event>)
    requires Apply(log).Success? && MessageEvents(log) == left + tail && |tail| == keep
    requires SafeSet(log, AsSet(Nums(left))) == {}
    ensures TailHides(log, keep) == []
  {
    assert (left + tail)[..|left|] == left;
    SortNothing(Nums(left), {});
  }

  /**
    Running MarkerTail twice in a row is running it once, except when it has something to hide and a revert
    already names the sequence number its compact would get: that compact is dead at birth and the strategy
    repeats.
    */
  lemma MarkerTailFixpoint(s: MarkerTail, log: seq<Event>)
    requires s.Valid() && Dense(log) && Apply(log).Success?
    ensures Apply(s.Next(log)).Success?
    ensures s.Next(s.Next(log)) == s.Next(log)
       <==> !s.Triggered(MessageEvents(log)) || TailHides(log, s.keepRecent) == [] || |log| !in Revoked(log)
  {
    var hides := TailHides(log, s.keepRecent);
    if s.Next(log) != log {
      var summary := Text.ReplaceAll(s.format, "$N", Text.IntText(|hides|));
      if |log| in Revoked(log) {
        DeadCompact(log, hides, summary, s.keepRecent);
      } else {
        TailFixpointCore(log, s.keepRecent, summary);
      }
    }
  }

  lemma TokenMarkerTailFixpoint(s: TokenMarkerTail, log: seq<Event>)
    requires s.Valid() && Dense(log) && Apply(log).Success?
    ensures Apply(s.Next(log)).Success?
    ensures s.Next(s.Next(log)) == s.Next(log)
       <==> !s.Triggered(MessageEvents(log)) || TailHides(log, s.keepRecent) == [] || |log| !in Revoked(log)
  {
    var hides := TailHides(log, s.keepRecent);
    if s.Next(log) != log {
      var summary := s.Summary(|hides|, Tokens(MessageEvents(log)));
      if |log| in Revoked(log) {
        DeadCompact(log, hides, summary, s.keepRecent);
      } else {
        TailFixpointCore(log, s.keepRecent, summary);
      }
    }
  }

  /** Two messages, and a revert of a number not yet given out. */
  const REVOKED_AHEAD: seq<Event> :=
    [Event(0, UserMessage(Str("first"))), Event(1, UserMessage(Str("second"))), Event(2, Revert(3))]

  lemma RevokedAheadIsReachable()
    ensures Reachable(REVOKED_AHEAD)
  {
    var first, second, undo := Note(UserMessage(Str("first"))), Note(UserMessage(Str("second"))), Undo(3);
    ReachesOne([], first);
    ReachesOne(REVOKED_AHEAD[..1], second);
    ReachesOne(REVOKED_AHEAD[..2], undo);
    assert Do([], first) == REVOKED_AHEAD[..1];
    assert Do(REVOKED_AHEAD[..1], second) == REVOKED_AHEAD[..2];
    assert Do(REVOKED_AHEAD[..2], undo) == REVOKED_AHEAD;
    ReachesTransitive([], REVOKED_AHEAD[..1], REVOKED_AHEAD[..2]);
    ReachesTransitive([], REVOKED_AHEAD[..2], REVOKED_AHEAD);
  }

  lemma {:induction false} NoCalls(log: seq<Event>)
    requires forall e :: e in log ==> !e.payload.ToolUse?
    ensures UseNums(log) == map[]
  {
    if log != [] {
      assert log[|log| - 1] in log;
      NoCalls(log[..|log| - 1]);
    }
  }

  lemma {:induction false} AllMessages(events: seq<Event>)
    requires forall e :: e in events ==> IsMessage(e.payload)
    ensures Messages(events) == events
  {
    if events != [] {
      assert events[|events| - 1] in events;
      AllMessages(events[..|events| - 1]);
    }
  }

  lemma NoCompacts(log: seq<Event>)
    requires forall e :: e in log ==> !e.payload.Compact?
    ensures Live(log) == [] && Apply(log) == Success(RenderAll(log, []))
  {
    hide RenderAll, Revoked;
    NothingLive(log, Revoked(log));
  }

  lemma RenderThenRevert(messages: seq<Event>, n: int)
    requires forall e :: e in messages ==> !IsMutation(e)
    ensures RenderAll(Add(messages, Revert(n)), []) == messages
  {
    assert Add(messages, Revert(n))[..|messages|] == messages;
    RenderNothingLive(messages);
    assert messages + [] == messages;
  }

  /** A revert after messages alone hides none of them. */
  lemma RevertAfterMessages(messages: seq<Event>, n: int)
    requires forall e :: e in messages ==> IsMessage(e.payload)
    ensures var log := Add(messages, Revert(n));
            Apply(log).Success? && MessageEvents(log) == messages && n in Revoked(log)
  {
    hide Messages, RenderAll, Apply;
    var log := Add(messages, Revert(n));
    assert log[|messages|] in log;
    NoCompacts(log);
    RenderThenRevert(messages, n);
    AllMessages(messages);
  }

  lemma RevokedAheadShowsBoth()
    ensures Dense(REVOKED_AHEAD) && |REVOKED_AHEAD[..2]| == 2
    ensures Apply(REVOKED_AHEAD).Success? && MessageEvents(REVOKED_AHEAD) == REVOKED_AHEAD[..2]
    ensures |REVOKED_AHEAD| in Revoked(REVOKED_AHEAD)
  {
    hide Apply, MessageEvents, Revoked;
    assert REVOKED_AHEAD == Add(REVOKED_AHEAD[..2], Revert(3));
    RevertAfterMessages(REVOKED_AHEAD[..2], 3);
  }

  lemma RevokedAheadHidesBoth()
    requires Apply(REVOKED_AHEAD).Success? && MessageEvents(REVOKED_AHEAD) == REVOKED_AHEAD[..2]
    ensures TailHides(REVOKED_AHEAD, 0) != []
  {
    hide Apply, MessageEvents;
    var log := REVOKED_AHEAD;
    NoCalls(log);
    assert log[..2][..2] == log[..2];
    var nums := Nums(log[..2]);
    assert nums[0] in SafeSet(log, AsSet(nums));
    assert nums[0] in SafeRange(log, nums);
  }

  /** On that log MarkerTail does repeat: each run appends one more compact. */
  lemma MarkerTailRepeats(format: string)
    ensures Reachable(REVOKED_AHEAD) && Dense(REVOKED_AHEAD) && Apply(REVOKED_AHEAD).Success?
    ensures var s := MarkerTail(1, 0, format);
            Apply(s.Next(REVOKED_AHEAD)).Success? && s.Next(s.Next(REVOKED_AHEAD)) != s.Next(REVOKED_AHEAD)
  {
    RevokedAheadIsReachable();
    RevokedAheadShowsBoth();
    RevokedAheadHidesBoth();
    hide Apply, TailHides, Revoked, Reachable, MessageEvents, REVOKED_AHEAD, Dense, MarkerTail.Next;
    MarkerTailFixpoint(MarkerTail(1, 0, format), REVOKED_AHEAD);
  }

  lemma RevokedAheadChars()
    ensures CharsOf(REVOKED_AHEAD[..2]) == 11
  {
    assert REVOKED_AHEAD[..2][..1] == REVOKED_AHEAD[..1] && REVOKED_AHEAD[..1][..0] == [];
    assert CharsOf(REVOKED_AHEAD[..1]) == 5;
  }

  /** And so does TokenMarkerTail. */
  lemma TokenMarkerTailRepeats(format: string)
    ensures Reachable(REVOKED_AHEAD) && Dense(REVOKED_AHEAD) && Apply(REVOKED_AHEAD).Success?
    ensures var s := TokenMarkerTail(1, 1.0, 0, format);
            Apply(s.Next(REVOKED_AHEAD)).Success? && s.Next(s.Next(REVOKED_AHEAD)) != s.Next(REVOKED_AHEAD)
  {
    RevokedAheadIsReachable();
    RevokedAheadShowsBoth();
    RevokedAheadHidesBoth();
    RevokedAheadChars();
    hide CharsOf, Apply, TailHides, Revoked, Reachable, MessageEvents, REVOKED_AHEAD, Dense, TokenMarkerTail.Next;
    TokenMarkerTailFixpoint(TokenMarkerTail(1, 1.0, 0, format), REVOKED_AHEAD);
  }

  lemma DeadCompactKeepsLive(log: seq<Event>, p: Payload)
    requires |log| in Revoked(log) && p.Compact?
    ensures Live(Add(log, p)) == Live(log)
  {
    LiveAfter(log, p);
    assert Live(log) + [] == Live(log);
  }

  /** A compact already revoked changes neither the messages nor what a strategy would hide. */
  lemma DeadCompact(log: seq<Event>, hides: seq<int>, summary: string, keep: nat)
    requires Apply(log).Success? && |log| in Revoked(log) && hides != []
    ensures var log' := AppendCompact(log, hides, summary);
            Apply(log') == Apply(log) && TailHides(log', keep) == TailHides(log, keep)
  {
    hide RenderAll, LiveAmong, Revoked, UseNums, ResultNums, Messages, Kept;
    var p := Compact(hides, summary);
    DeadCompactKeepsLive(log, p);
    MutationsAppendNothing(log, [Event(|log|, p)]);
    ToolPairsAfterCompact(log, p);
  }

  /**
    After a tail compaction of a log that keeps the invariant: the last `keep` messages are the same,
    and every older message still visible is a call whose answer is missing or in that tail.
    */
  lemma {:induction false} TailKeepsRecentAndOpenCalls(log: seq<Event>, keep: nat, summary: string)
    requires Inv(log) && |log| !in Revoked(log)
    requires Apply(log).Success? && TailHides(log, keep) != []
    ensures var log' := AppendCompact(log, TailHides(log, keep), summary);
            && Apply(log').Success?
            && var before, after := MessageEvents(log), MessageEvents(log');
            && |before| >= keep && |after| >= keep
            && after[|after| - keep..] == before[|before| - keep..]
            && forall k :: 0 <= k < |after| - keep ==>
                 && after[k].payload.ToolUse?
                 && forall j :: IsResult(log, j, after[k].payload.id) ==> log[j] in after[|after| - keep..]
  {
    MessagesAfterTail(log, keep, summary);
    var hides := TailHides(log, keep);
    var hidden := AsSet(hides);
    var log' := AppendCompact(log, hides, summary);
    var before, after := MessageEvents(log), MessageEvents(log');
    var head, tail := before[..|before| - keep], before[|before| - keep..];
    assert after[..|after| - keep] == Without(head, hidden);
    assert after[|after| - keep..] == tail;
    WithoutMembers(head, hidden);
    MessagesOfRender(log, Live(log));
    forall k | 0 <= k < |after| - keep
      ensures after[k].payload.ToolUse?
      ensures forall j :: IsResult(log, j, after[k].payload.id) ==> log[j] in tail
    {
      assert after[k] in after[..|after| - keep];
      LeftoverIsOpenCall(log, before, |before| - keep, after[k]);
    }
  }

  lemma LeftoverIsOpenCall(log: seq<Event>, before: seq<Event>, k: nat, e: Event)
    requires Inv(log) && before == Visible(log, Hidden(log)) && k <= |before|
    requires e in before[..k] && e.num !in SafeSet(log, AsSet(Nums(before[..k])))
    ensures e.payload.ToolUse?
    ensures forall j :: IsResult(log, j, e.payload.id) ==> log[j] in before[k..]
  {
    assert e in before;
    VisibleMembers(log, Hidden(log));
    var i, u, id := OpenHalf(log, before[..k], e);
    forall r | IsResult(log, r, id)
      ensures i == u && log[r] in before[k..]
    {
      AnswerInTail(log, before, k, u, r, id, i);
    }
  }

  lemma AnswerInTail(log: seq<Event>, before: seq<Event>, k: nat, u: int, r: int, id: ToolId, i: int)
    requires Inv(log) && before == Visible(log, Hidden(log)) && k <= |before|
    requires IsUse(log, u, id) && IsResult(log, r, id) && (i == u || i == r)
    requires log[i] in before && i in Nums(before[..k])
    requires u in Nums(before[..k]) <==> r !in Nums(before[..k])
    ensures i == u && log[r] in before[k..]
  {
    PairVisible(log, u, r, id, i);
    VisibleAscends(log, Hidden(log));
    HalfInHead(log, before, k, u, r, i);
  }

  lemma OpenHalf(log: seq<Event>, head: seq<Event>, e: Event) returns (i: int, u: int, id: ToolId)
    requires Dense(log) && ToolDiscipline(log)
    requires e in head && e in log && e.num !in SafeSet(log, AsSet(Nums(head)))
    ensures 0 <= i < |log| && log[i] == e && i in Nums(head) && IsUse(log, u, id) && (i == u || IsResult(log, i, id))
    ensures !Answered(log, id) ==> i == u
    ensures forall r :: IsResult(log, r, id) ==> (u in Nums(head) <==> r !in Nums(head))
  {
    i :| 0 <= i < |log| && log[i] == e;
    var p :| 0 <= p < |head| && head[p] == e;
    assert Nums(head)[p] == i;
    u, id := Forbids(log, AsSet(Nums(head)), i);
  }

  /** Half of a visible pair in the head: it is the call, and its answer is in the tail. */
  lemma HalfInHead(log: seq<Event>, before: seq<Event>, k: nat, u: int, r: int, i: int)
    requires Dense(log) && NumsAscend(before) && k <= |before| && 0 <= u < r < |log|
    requires log[u] in before && log[r] in before
    requires (i == u || i == r) && i in Nums(before[..k])
    requires u in Nums(before[..k]) <==> r !in Nums(before[..k])
    ensures i == u && log[r] in before[k..]
  {
    if r in Nums(before[..k]) { EarlierIsInHead(log, before, k, u, r); }
    assert forall p :: 0 <= p < k ==> before[p].num == Nums(before[..k])[p] != r;
    var q :| 0 <= q < |before| && before[q] == log[r];
    assert before[k..][q - k] == log[r];
  }

  /** The pair that keeps an event out of the safe range. */
  lemma Forbids(log: seq<Event>, candidates: set<int>, i: int) returns (u: int, id: ToolId)
    requires Dense(log) && ToolDiscipline(log) && i in candidates && i !in SafeSet(log, candidates)
    ensures IsUse(log, u, id) && (i == u || IsResult(log, i, id))
    ensures !Answered(log, id) ==> i == u
    ensures forall r :: IsResult(log, r, id) ==> (u in candidates <==> r !in candidates)
  {
    var uses, results := UseNums(log), ResultNums(log);
    UseNumsOk(log);
    ResultNumsOk(log);
    id :| id in uses && i in Discards(uses, results, candidates, id);
    u := uses[id];
    if id in results { assert IsResult(log, results[id], id); }
  }

  lemma EarlierIsInHead(log: seq<Event>, before: seq<Event>, k: nat, u: int, r: int)
    requires Dense(log) && NumsAscend(before) && k <= |before| && 0 <= u < r < |log|
    requires log[u] in before && r in Nums(before[..k])
    ensures u in Nums(before[..k])
  {
    var p :| 0 <= p < |before| && before[p] == log[u];
    var q :| 0 <= q < k && Nums(before[..k])[q] == r;
    assert before[q].num == r;
    assert p < q;
    assert Nums(before[..k])[p] == u;
  }

  lemma PairVisible(log: seq<Event>, u: int, r: int, id: ToolId, i: int)
    requires Inv(log) && IsUse(log, u, id) && IsResult(log, r, id) && (i == u || i == r)
    requires log[i] in Visible(log, Hidden(log))
    ensures u < r && log[u] in Visible(log, Hidden(log)) && log[r] in Visible(log, Hidden(log))
  {
    PairsHiddenTogether(log, u, id);
    VisibleMembers(log, Hidden(log));
  }
}
