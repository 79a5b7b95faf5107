/** The sliding-window rate limiter around tool handlers; the clock is an input that never goes back. */
module RateLimits {

  /** The times from `from` on. */
  function Since(ts: seq<real>, from: real): (r: seq<real>)
    ensures forall t :: t in r ==> t >= from && t in ts
  {
    if ts == [] then []
    else
      var t := ts[|ts| - 1];
      Since(ts[..|ts| - 1], from) + (if t >= from then [t] else [])
  }

  /** The times in the closed minute that starts at `from`. */
  function Minute(ts: seq<real>, from: real): (r: seq<real>)
    ensures forall t :: t in r ==> from <= t <= from + 60.0
  {
    if ts == [] then []
    else
      var t := ts[|ts| - 1];
      Minute(ts[..|ts| - 1], from) + (if from <= t <= from + 60.0 then [t] else [])
  }

  /** No closed minute holds more than `most` of these times. */
  ghost predicate Limited(ts: seq<real>, most: int) {
    forall from: real :: |Minute(ts, from)| <= most
  }

  lemma {:induction false} SinceSince(ts: seq<real>, a: real, b: real)
    requires a <= b
    ensures Since(Since(ts, a), b) == Since(ts, b)
  {
    if ts != [] {
      var init, t := ts[..|ts| - 1], ts[|ts| - 1];
      SinceSince(init, a, b);
      if t >= a { assert (Since(init, a) + [t])[..|Since(init, a)|] == Since(init, a); }
      else { assert Since(init, a) + [] == Since(init, a); }
    }
  }

  lemma {:induction false} MinuteWithinSince(ts: seq<real>, from: real, now: real)
    requires from >= now - 60.0
    ensures |Minute(ts, from)| <= |Since(ts, now - 60.0)|
  {
    if ts != [] { MinuteWithinSince(ts[..|ts| - 1], from, now); }
  }

  /** Up to now, the times since a minute ago are those of the last closed minute. */
  lemma {:induction false} SinceIsLastMinute(ts: seq<real>, now: real)
    requires forall t :: t in ts ==> t <= now
    ensures Since(ts, now - 60.0) == Minute(ts, now - 60.0)
  {
    if ts != [] {
      var init := ts[..|ts| - 1];
      assert ts[|ts| - 1] in ts && forall t :: t in init ==> t in ts;
      SinceIsLastMinute(init, now);
    }
  }

  /** Admitting one more keeps every closed minute within the limit, also those the limiter has forgotten. */
  lemma AdmissionKeepsLimit(history: seq<real>, now: real, most: int)
    requires Limited(history, most) && |Since(history, now - 60.0)| < most
    ensures Limited(history + [now], most)
  {
    var after := history + [now];
    forall from: real ensures |Minute(after, from)| <= most {
      assert after[..|history|] == history;
      assert |Minute(history, from)| <= most;
      if from <= now <= from + 60.0 { MinuteWithinSince(history, from, now); }
    }
  }

  class RateLimiter {
    const perMinute: int
    var timestamps: seq<real>
    /** Every admission so far, and the latest time at which the limiter was asked. */
    ghost var history: seq<real>
    ghost var last: real

    ghost predicate Valid()
      reads this
    {
      && perMinute > 0
      && (forall t :: t in history ==> t <= last)
      && timestamps == Since(history, last - 60.0)
      && Limited(history, perMinute)
    }

    constructor (perMinute: int)
      requires perMinute > 0
      ensures Valid() && this.perMinute == perMinute && history == []
    {
      this.perMinute := perMinute;
      timestamps, history, last := [], [], 0.0;
    }

    /** Admits unless the closed minute up to now is already full. */
    method Admit(now: real) returns (admitted: bool)
      requires Valid() && (history == [] || now >= last)
      modifies this
      ensures Valid() && last == now
      ensures admitted <==> |Minute(old(history), now - 60.0)| < perMinute
      ensures history == if admitted then old(history) + [now] else old(history)
    {
      hide Limited, Since, Minute;
      Forget(now - 60.0);
      if history != [] { SinceSince(history, last - 60.0, now - 60.0); }
      NoneSince();
      SinceIsLastMinute(history, now);
      last := now;
      if |timestamps| >= perMinute { return false; }
      timestamps := timestamps + [now];
      AdmissionKeepsLimit(history, now, perMinute);
      SinceNext(history, now);
      history := history + [now];
      return true;
    }

    /** Drops the timestamps before a time. */
    method Forget(from: real)
      modifies `timestamps
      ensures timestamps == Since(old(timestamps), from)
    {
      var kept: seq<real> := [];
      var i := 0;
      while i < |timestamps|
        invariant 0 <= i <= |timestamps| && kept == Since(timestamps[..i], from)
      {
        assert timestamps[..i + 1][..i] == timestamps[..i];
        if timestamps[i] >= from { kept := kept + [timestamps[i]]; }
        i := i + 1;
      }
      assert timestamps[..i] == timestamps;
      timestamps := kept;
    }
  }

  lemma NoneSince()
    ensures forall from: real :: Since([], from) == []
  {
  }

  lemma SinceNext(ts: seq<real>, now: real)
    ensures Since(ts + [now], now - 60.0) == Since(ts, now - 60.0) + [now]
  {
    assert (ts + [now])[..|ts|] == ts;
  }

  /** The times of the admitted calls. */
  function Picked(times: seq<real>, admitted: seq<bool>): seq<real>
    requires |times| == |admitted|
  {
    if times == [] then []
    else
      var n := |times| - 1;
      Picked(times[..n], admitted[..n]) + (if admitted[n] then [times[n]] else [])
  }

  /** A call is admitted exactly when the minute up to it holds fewer admissions than the limit. */
  ghost predicate AdmitsExactly(perMinute: int, times: seq<real>, admitted: seq<bool>)
    requires |times| == |admitted|
  {
    forall i :: 0 <= i < |times| ==>
      (admitted[i] <==> |Minute(Picked(times[..i], admitted[..i]), times[i] - 60.0)| < perMinute)
  }

  lemma AdmitsNext(perMinute: int, times: seq<real>, admitted: seq<bool>, i: nat, ok: bool)
    requires i == |admitted| < |times| && AdmitsExactly(perMinute, times[..i], admitted)
    requires ok <==> |Minute(Picked(times[..i], admitted), times[i] - 60.0)| < perMinute
    ensures AdmitsExactly(perMinute, times[..i + 1], admitted + [ok])
    ensures Picked(times[..i + 1], admitted + [ok]) == Picked(times[..i], admitted) + (if ok then [times[i]] else [])
  {
    hide Minute, Picked;
    PickedNext(times, admitted, i, ok);
    var before, after := times[..i], admitted + [ok];
    forall k | 0 <= k <= i
      ensures after[k] <==> |Minute(Picked(times[..i + 1][..k], after[..k]), times[k] - 60.0)| < perMinute
    {
      assert times[..i + 1][..k] == times[..k] == before[..k];
      if k == i { assert before[..k] == before && after[..k] == admitted; }
      else { assert after[..k] == admitted[..k]; }
    }
  }

  lemma PickedNext(times: seq<real>, admitted: seq<bool>, i: nat, ok: bool)
    requires i == |admitted| < |times|
    ensures Picked(times[..i + 1], admitted + [ok]) == Picked(times[..i], admitted) + (if ok then [times[i]] else [])
  {
    assert times[..i + 1][..i] == times[..i] && (admitted + [ok])[..i] == admitted;
  }

  /**
    Any calls at any times that never go back: a call is admitted exactly when the minute up to it is not yet
    full, and so no closed minute of the whole history holds more than the limit.
    */
  method Serve(perMinute: int, times: seq<real>) returns (admitted: seq<bool>)
    requires perMinute > 0
    requires forall j, k :: 0 <= j < k < |times| ==> times[j] <= times[k]
    ensures |admitted| == |times| && AdmitsExactly(perMinute, times, admitted)
    ensures Limited(Picked(times, admitted), perMinute)
  {
    hide Minute, Picked, AdmitsExactly, Limited;
    var limiter := new RateLimiter(perMinute);
    admitted := [];
    NoneServed(perMinute, times);
    var i := 0;
    while i < |times|
      invariant 0 <= i <= |times| && limiter.Valid() && limiter.perMinute == perMinute && fresh(limiter)
      invariant |admitted| == i && AdmitsExactly(perMinute, times[..i], admitted)
      invariant limiter.history == Picked(times[..i], admitted)
      invariant i > 0 ==> limiter.last == times[i - 1]
      invariant i == 0 ==> limiter.history == []
    {
      var ok := limiter.Admit(times[i]);
      AdmitsNext(perMinute, times, admitted, i, ok);
      admitted := admitted + [ok];
      i := i + 1;
    }
    assert times[..i] == times;
  }

  lemma NoneServed(perMinute: int, times: seq<real>)
    ensures AdmitsExactly(perMinute, times[..0], []) && Picked(times[..0], []) == []
  {
  }
}
