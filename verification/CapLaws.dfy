/** What ToolOutputCap appends to a reachable log: which pairs it caps, and the summary it leaves for them. */
module CapLaws {
  import opened Wrappers
  import opened JsonValues
  import opened PythonText
  import opened Events
  import opened Mutations
  import opened Compaction
  import opened Strategies
  import opened LogHistory
  import opened Utf8
  import Text

  // ---- Replacement ---------------------------------------------------------------------------------------

  predicate OccursAt(text: string, pattern: string, i: int) {
    0 <= i <= |text| - |pattern| && text[i..i + |pattern|] == pattern
  }

  lemma OccursLater(text: string, pattern: string, i: int)
    requires text != "" && i >= 0
    ensures OccursAt(text[1..], pattern, i) <==> OccursAt(text, pattern, i + 1)
  {
    if i + 1 <= |text| - |pattern| {
      assert text[1..][i..i + |pattern|] == text[i + 1..i + 1 + |pattern|];
    }
  }

  /** A text without the pattern stays as it is. */
  lemma {:induction false} NothingToReplace(text: string, pattern: string, value: string)
    requires pattern != "" && forall i :: !OccursAt(text, pattern, i)
    ensures Text.ReplaceAll(text, pattern, value) == text
  {
    if text != "" {
      assert !OccursAt(text, pattern, 0);
      forall i ensures !OccursAt(text[1..], pattern, i) {
        if i >= 0 { OccursLater(text, pattern, i); }
      }
      NothingToReplace(text[1..], pattern, value);
      assert text == [text[0]] + text[1..];
    }
  }

  /** The first occurrence of the pattern is replaced, and then those in the rest. */
  lemma {:induction false} FirstReplaced(text: string, pattern: string, value: string, i: nat)
    requires pattern != "" && OccursAt(text, pattern, i) && forall j :: j < i ==> !OccursAt(text, pattern, j)
    ensures Text.ReplaceAll(text, pattern, value)
         == text[..i] + value + Text.ReplaceAll(text[i + |pattern|..], pattern, value)
  {
    hide OccursAt, Text.ReplaceAll;
    Fits(text, pattern, i);
    if i == 0 {
      Here(text, pattern, value);
      assert text[..0] + value == value && text[0 + |pattern|..] == text[|pattern|..];
    } else {
      OccursLater(text, pattern, i - 1);
      forall j | j < i - 1 ensures !OccursAt(text[1..], pattern, j) {
        if j >= 0 { OccursLater(text, pattern, j); } else { NotBefore(text[1..], pattern, j); }
      }
      FirstReplaced(text[1..], pattern, value, i - 1);
      Shifted(text, i, |pattern|, value, Text.ReplaceAll(text[i + |pattern|..], pattern, value));
      NotHere(text, pattern, value);
    }
  }

  lemma Fits(text: string, pattern: string, i: int)
    requires OccursAt(text, pattern, i)
    ensures 0 <= i && i + |pattern| <= |text|
  {
  }

  lemma NotBefore(text: string, pattern: string, i: int)
    requires i < 0
    ensures !OccursAt(text, pattern, i)
  {
  }

  lemma Here(text: string, pattern: string, value: string)
    requires pattern != "" && OccursAt(text, pattern, 0)
    ensures Text.ReplaceAll(text, pattern, value) == value + Text.ReplaceAll(text[|pattern|..], pattern, value)
  {
    assert text[0..0 + |pattern|] == text[..|pattern|];
  }

  lemma NotHere(text: string, pattern: string, value: string)
    requires pattern != "" && text != "" && !OccursAt(text, pattern, 0)
    ensures Text.ReplaceAll(text, pattern, value) == [text[0]] + Text.ReplaceAll(text[1..], pattern, value)
  {
  }

  lemma Shifted(text: string, i: nat, n: nat, value: string, rest: string)
    requires 1 <= i && i + n <= |text|
    ensures text[1..][i - 1 + n..] == text[i + n..]
    ensures [text[0]] + (text[1..][..i - 1] + value + rest) == text[..i] + value + rest
  {
    assert [text[0]] + text[1..][..i - 1] == text[..i];
  }

  // ---- The walk -----------------------------------------------------------------------------------------

  /** The payload is the compact of some capped result of the stream. */
  ghost predicate FromStream(
    cap: ToolOutputCap, log: seq<Event>, uses: map<ToolId, int>, stream: seq<Event>, p: Payload)
    requires cap.Valid()
  {
    exists e :: e in stream && cap.Caps(uses, e) && CompactOf(cap, log, uses, e, p)
  }

  ghost predicate HasCompact(cap: ToolOutputCap, log: seq<Event>, uses: map<ToolId, int>, e: Event, to: seq<Event>)
    requires cap.Valid()
  {
    exists k :: |log| <= k < |to| && CompactOf(cap, log, uses, e, to[k].payload)
  }

  /** `to` adds a compact for each capped result of the stream, and nothing else. */
  ghost predicate Appended(
    cap: ToolOutputCap, log: seq<Event>, uses: map<ToolId, int>, stream: seq<Event>, to: seq<Event>)
    requires cap.Valid()
  {
    && log <= to
    && (forall k :: |log| <= k < |to| ==>
          to[k].num == k && to[k].payload.Compact? && FromStream(cap, log, uses, stream, to[k].payload))
    && (forall e :: e in stream && cap.Caps(uses, e) ==> HasCompact(cap, log, uses, e, to))
  }

  lemma {:induction false} WalkAppends(cap: ToolOutputCap, log: seq<Event>, uses: map<ToolId, int>, stream: seq<Event>)
    requires cap.Valid()
    ensures Appended(cap, log, uses, stream, cap.Walk(log, uses, stream))
  {
    if stream != [] {
      var n := |stream| - 1;
      WalkAppends(cap, log, uses, stream[..n]);
      assert stream == stream[..n] + [stream[n]];
      OneAppended(cap, log, uses, stream[..n], stream[n], cap.Walk(log, uses, stream[..n]));
    }
  }

  lemma OneAppended(
    cap: ToolOutputCap, log: seq<Event>, uses: map<ToolId, int>, init: seq<Event>, e: Event, before: seq<Event>)
    requires cap.Valid() && Appended(cap, log, uses, init, before)
    ensures !cap.Caps(uses, e) ==> Appended(cap, log, uses, init + [e], before)
    ensures cap.Caps(uses, e) ==>
              Appended(cap, log, uses, init + [e],
                       before + [Event(|before|, Compact(cap.SortedPair(uses[e.payload.toolUseId], e.num),
                                                         cap.Summary(before, e)))])
  {
    hide Appended, CompactOf, ToolOutputCap.Summary, ToolOutputCap.Caps;
    if !cap.Caps(uses, e) {
      NoneAppended(cap, log, uses, init, e, before);
    } else {
      CapsResults(cap, uses, e);
      CompactOnly(cap, log, uses, init, before);
      ToolNameStays(log, before, e.payload.toolUseId);
      CompactIsOf(cap, log, before, uses, e);
      CompactAppended(cap, log, uses, init, e, before,
                      Compact(cap.SortedPair(uses[e.payload.toolUseId], e.num), cap.Summary(before, e)));
    }
  }

  lemma CapsResults(cap: ToolOutputCap, uses: map<ToolId, int>, e: Event)
    requires cap.Valid() && cap.Caps(uses, e)
    ensures e.payload.ToolResult? && e.payload.toolUseId in uses
  {
  }

  lemma CompactOnly(
    cap: ToolOutputCap, log: seq<Event>, uses: map<ToolId, int>, stream: seq<Event>, to: seq<Event>)
    requires cap.Valid() && Appended(cap, log, uses, stream, to)
    ensures log <= to && forall k :: |log| <= k < |to| ==> to[k].payload.Compact?
  {
  }

  lemma StreamGrows(
    cap: ToolOutputCap, log: seq<Event>, uses: map<ToolId, int>, init: seq<Event>, e: Event, p: Payload)
    requires cap.Valid() && FromStream(cap, log, uses, init, p)
    ensures FromStream(cap, log, uses, init + [e], p)
  {
    hide CompactOf, ToolOutputCap.Caps;
    var x :| x in init && cap.Caps(uses, x) && CompactOf(cap, log, uses, x, p);
    assert x in init + [e];
  }

  lemma LogGrows(
    cap: ToolOutputCap, log: seq<Event>, uses: map<ToolId, int>, e: Event, before: seq<Event>, last: Event)
    requires cap.Valid() && HasCompact(cap, log, uses, e, before)
    ensures HasCompact(cap, log, uses, e, before + [last])
  {
    hide CompactOf;
    var k :| |log| <= k < |before| && CompactOf(cap, log, uses, e, before[k].payload);
    assert (before + [last])[k] == before[k];
  }

  lemma NoneAppended(
    cap: ToolOutputCap, log: seq<Event>, uses: map<ToolId, int>, init: seq<Event>, e: Event, before: seq<Event>)
    requires cap.Valid() && Appended(cap, log, uses, init, before) && !cap.Caps(uses, e)
    ensures Appended(cap, log, uses, init + [e], before)
  {
    hide FromStream, HasCompact, ToolOutputCap.Caps;
    forall k | |log| <= k < |before| ensures FromStream(cap, log, uses, init + [e], before[k].payload) {
      assert before[k].num == k;
      StreamGrows(cap, log, uses, init, e, before[k].payload);
    }
  }

  lemma CompactAppended(
    cap: ToolOutputCap, log: seq<Event>, uses: map<ToolId, int>, init: seq<Event>, e: Event, before: seq<Event>,
    p: Payload)
    requires cap.Valid() && Appended(cap, log, uses, init, before)
    requires cap.Caps(uses, e) && CompactOf(cap, log, uses, e, p) && p.Compact?
    ensures Appended(cap, log, uses, init + [e], before + [Event(|before|, p)])
  {
    hide FromStream, HasCompact, ToolOutputCap.Caps, CompactOf;
    var stream, last := init + [e], Event(|before|, p);
    var to := before + [last];
    LastCompact(cap, log, uses, init, e, before, p);
    forall k | |log| <= k < |to|
      ensures to[k].num == k && to[k].payload.Compact? && FromStream(cap, log, uses, stream, to[k].payload)
    {
      if k < |before| {
        assert to[k] == before[k] && before[k].num == k;
        StreamGrows(cap, log, uses, init, e, before[k].payload);
      }
    }
    forall x | x in stream && cap.Caps(uses, x) ensures HasCompact(cap, log, uses, x, to) {
      if x in init { LogGrows(cap, log, uses, x, before, last); }
    }
  }

  lemma LastCompact(
    cap: ToolOutputCap, log: seq<Event>, uses: map<ToolId, int>, init: seq<Event>, e: Event, before: seq<Event>,
    p: Payload)
    requires cap.Valid() && cap.Caps(uses, e) && CompactOf(cap, log, uses, e, p) && log <= before
    ensures FromStream(cap, log, uses, init + [e], p)
    ensures HasCompact(cap, log, uses, e, before + [Event(|before|, p)])
  {
    hide CompactOf, ToolOutputCap.Caps;
    assert e in init + [e];
    assert (before + [Event(|before|, p)])[|before|].payload == p;
  }

  ghost predicate CompactOf(cap: ToolOutputCap, log: seq<Event>, uses: map<ToolId, int>, e: Event, p: Payload)
    requires cap.Valid()
  {
    && e.payload.ToolResult? && e.payload.toolUseId in uses
    && p == Compact(cap.SortedPair(uses[e.payload.toolUseId], e.num), cap.Summary(log, e))
  }

  lemma CompactIsOf(cap: ToolOutputCap, log: seq<Event>, before: seq<Event>, uses: map<ToolId, int>, e: Event)
    requires cap.Valid() && cap.Caps(uses, e)
    requires ToolName(before, e.payload.toolUseId) == ToolName(log, e.payload.toolUseId)
    ensures CompactOf(cap, log, uses, e,
                      Compact(cap.SortedPair(uses[e.payload.toolUseId], e.num), cap.Summary(before, e)))
  {
  }

  lemma {:induction false} ToolNameStays(log: seq<Event>, to: seq<Event>, id: ToolId)
    requires log <= to && forall k :: |log| <= k < |to| ==> to[k].payload.Compact?
    ensures ToolName(to, id) == ToolName(log, id)
    decreases |to|
  {
    if |to| > |log| { ToolNameStays(log, to[..|to| - 1], id); } else { assert to == log; }
  }

  lemma {:induction false} ToolNameFound(log: seq<Event>, i: int, id: ToolId)
    requires IsUse(log, i, id) && forall k :: IsUse(log, k, id) ==> k == i
    ensures ToolName(log, id) == log[i].payload.name
  {
    var n := |log| - 1;
    if i < n {
      assert !IsUse(log, n, id);
      assert IsUse(log[..n], i, id) && forall k :: IsUse(log[..n], k, id) ==> IsUse(log, k, id);
      ToolNameFound(log[..n], i, id);
    }
  }

  // ---- On reachable logs ---------------------------------------------------------------------------------

  /** A result's output as the cap counts it: nothing for an absent one and for values that count as false. */
  function OutputText(output: Option<Json>): string {
    if output == None || output.value in {Null, Bool(false), Int(0), Str(""), List([]), Dict([])} then ""
    else if output.value.Str? then output.value.text
    else PyStr(output.value)
  }

  /** The summary: the tool's name, the two byte counts, and the prefix, in place of the four marks. */
  function CapText(cap: ToolOutputCap, name: string, output: string, prefix: string): string {
    var named := Text.ReplaceAll(cap.format, "$TOOL", name);
    var limited := Text.ReplaceAll(named, "$CAP", Text.IntText(cap.maxBytes));
    var counted := Text.ReplaceAll(limited, "$ORIGINAL", Text.IntText(|Encode(output)|));
    Text.ReplaceAll(counted, "$PREFIX", prefix)
  }

  /** The prefix is the longest part of the output, from its start, that fits in the byte limit for it. */
  lemma PrefixIsLongest(cap: ToolOutputCap, output: string) returns (n: nat)
    requires cap.Valid()
    ensures n <= |output| && |Encode(output[..n])| <= cap.prefixBytes && cap.Prefix(output) == output[..n]
    ensures n < |output| ==> |Encode(output[..n + 1])| > cap.prefixBytes
  {
    var bytes := Encode(output);
    if |bytes| <= cap.prefixBytes {
      n := CutKeepsLongestPrefix(output, |bytes|);
      assert bytes[..|bytes|] == bytes;
      if n < |output| { EncodedParts(output, n + 1); }
    } else {
      n := CutKeepsLongestPrefix(output, cap.prefixBytes);
    }
  }

  /** The encoding of a part is no longer than that of the whole. */
  lemma {:induction false} EncodedParts(text: string, n: nat)
    requires n <= |text|
    ensures |Encode(text[..n])| <= |Encode(text)|
  {
    if n > 0 {
      EncodeFirst(text, n);
      EncodedParts(text[1..], n - 1);
    }
  }

  /**
    A visible pair is capped exactly when its output takes more bytes than the limit: then one compact hides its
    two events under the summary, and otherwise no compact that the strategy appends hides either.
    */
  lemma CapsExactly(cap: ToolOutputCap, log: seq<Event>, i: int, j: int, id: ToolId) returns (n: nat)
    requires Reachable(log) && cap.Valid() && IsUse(log, i, id) && IsResult(log, j, id)
    requires Apply(log).Success? && log[j] in Apply(log).value
    ensures n <= |OutputText(log[j].payload.output)|
    ensures var text, to := OutputText(log[j].payload.output), cap.Next(log);
            && |Encode(text[..n])| <= cap.prefixBytes
            && (n < |text| ==> |Encode(text[..n + 1])| > cap.prefixBytes)
            && log <= to
            && if |Encode(text)| > cap.maxBytes then
                 exists k :: |log| <= k < |to|
                   && to[k] == Event(k, Compact([i, j], CapText(cap, log[i].payload.name, text, text[..n])))
               else
                 forall k :: |log| <= k < |to| ==>
                   to[k].payload.Compact? && i !in to[k].payload.hides && j !in to[k].payload.hides
  {
    hide *;
    ReachableInv(log);
    n := CapsPair(cap, log, i, j, id);
  }

  lemma CapsPair(cap: ToolOutputCap, log: seq<Event>, i: int, j: int, id: ToolId) returns (n: nat)
    requires Inv(log) && cap.Valid() && IsUse(log, i, id) && IsResult(log, j, id)
    requires Apply(log).Success? && log[j] in Apply(log).value
    ensures n <= |OutputText(log[j].payload.output)|
    ensures var text, to := OutputText(log[j].payload.output), cap.Next(log);
            && |Encode(text[..n])| <= cap.prefixBytes
            && (n < |text| ==> |Encode(text[..n + 1])| > cap.prefixBytes)
            && log <= to
            && if |Encode(text)| > cap.maxBytes then
                 exists k :: |log| <= k < |to|
                   && to[k] == Event(k, Compact([i, j], CapText(cap, log[i].payload.name, text, text[..n])))
               else
                 forall k :: |log| <= k < |to| ==>
                   to[k].payload.Compact? && i !in to[k].payload.hides && j !in to[k].payload.hides
  {
    hide Apply, Inv, Appended, ToolOutputCap.Next, Encode, OutputText, CapText, UseNums, ToolOutputCap.Prefix;
    n := PrefixIsLongest(cap, OutputText(log[j].payload.output));
    PairFacts(cap, log, i, j, id);
    if |Encode(OutputText(log[j].payload.output))| > cap.maxBytes {
      PairCapped(cap, log, i, j, id, cap.Next(log), n);
    } else {
      PairSpared(cap, log, i, j, id, cap.Next(log));
    }
  }

  lemma PairFacts(cap: ToolOutputCap, log: seq<Event>, i: int, j: int, id: ToolId)
    requires Inv(log) && cap.Valid() && IsUse(log, i, id) && IsResult(log, j, id) && Apply(log).Success?
    ensures Dense(log) && ToolDiscipline(log) && i < j && id in UseNums(log) && UseNums(log)[id] == i
    ensures log <= cap.Next(log) && Appended(cap, log, UseNums(log), Apply(log).value, cap.Next(log))
  {
    hide Inv, Apply, CompactOf, ToolOutputCap.Walk, ToolOutputCap.Caps;
    InvParts(log);
    WalkAppends(cap, log, UseNums(log), Apply(log).value);
    UseNumsOk(log);
    OrderedPair(log, i, j, id);
  }

  lemma PairCapped(
    cap: ToolOutputCap, log: seq<Event>, i: int, j: int, id: ToolId, to: seq<Event>, n: nat)
    requires cap.Valid() && Dense(log) && ToolDiscipline(log) && IsUse(log, i, id) && IsResult(log, j, id) && i < j
    requires id in UseNums(log) && UseNums(log)[id] == i && Apply(log).Success? && log[j] in Apply(log).value
    requires Appended(cap, log, UseNums(log), Apply(log).value, to)
    requires var text := OutputText(log[j].payload.output);
             n <= |text| && cap.Prefix(text) == text[..n] && |Encode(text)| > cap.maxBytes
    ensures var text := OutputText(log[j].payload.output);
            exists k :: |log| <= k < |to|
              && to[k] == Event(k, Compact([i, j], CapText(cap, log[i].payload.name, text, text[..n])))
  {
    hide Apply, CompactOf, ToolOutputCap.Caps, ToolOutputCap.Prefix, Encode, OutputText, CapText, UseNums;
    var uses := UseNums(log);
    CapsIff(cap, uses, log[j]);
    var k :| |log| <= k < |to| && CompactOf(cap, log, uses, log[j], to[k].payload);
    TheCompact(cap, log, uses, i, j, id, to[k].payload, n);
  }

  lemma PairSpared(cap: ToolOutputCap, log: seq<Event>, i: int, j: int, id: ToolId, to: seq<Event>)
    requires cap.Valid() && Inv(log) && IsUse(log, i, id) && IsResult(log, j, id) && id in UseNums(log)
    requires Apply(log).Success? && Appended(cap, log, UseNums(log), Apply(log).value, to)
    requires |Encode(OutputText(log[j].payload.output))| <= cap.maxBytes
    ensures forall k :: |log| <= k < |to| ==>
              to[k].payload.Compact? && i !in to[k].payload.hides && j !in to[k].payload.hides
  {
    hide Apply, Inv, CompactOf, ToolOutputCap.Caps, Encode, OutputText, UseNums;
    var uses, stream := UseNums(log), Apply(log).value;
    CapsIff(cap, uses, log[j]);
    forall k | |log| <= k < |to| ensures i !in to[k].payload.hides && j !in to[k].payload.hides {
      assert FromStream(cap, log, uses, stream, to[k].payload);
      var e :| e in stream && cap.Caps(uses, e) && CompactOf(cap, log, uses, e, to[k].payload);
      OtherCompact(cap, log, uses, e, i, j, id, to[k].payload);
    }
  }

  lemma CapsIff(cap: ToolOutputCap, uses: map<ToolId, int>, e: Event)
    requires cap.Valid() && e.payload.ToolResult? && e.payload.toolUseId in uses
    ensures cap.Caps(uses, e) <==> |Encode(OutputText(e.payload.output))| > cap.maxBytes
  {
    OutputIsText(cap, e.payload);
  }

  lemma TheCompact(
    cap: ToolOutputCap, log: seq<Event>, uses: map<ToolId, int>, i: int, j: int, id: ToolId, p: Payload, n: nat)
    requires cap.Valid() && ToolDiscipline(log) && IsUse(log, i, id) && IsResult(log, j, id) && i < j
    requires Dense(log) && id in uses && uses[id] == i && CompactOf(cap, log, uses, log[j], p)
    requires var text := OutputText(log[j].payload.output);
             n <= |text| && cap.Prefix(text) == text[..n]
    ensures var text := OutputText(log[j].payload.output);
            p == Compact([i, j], CapText(cap, log[i].payload.name, text, text[..n]))
  {
    OutputIsText(cap, log[j].payload);
    ToolNameFound(log, i, id);
  }

  lemma OtherCompact(
    cap: ToolOutputCap, log: seq<Event>, uses: map<ToolId, int>, e: Event, i: int, j: int, id: ToolId, p: Payload)
    requires cap.Valid() && Inv(log) && Apply(log).Success? && e in Apply(log).value && uses == UseNums(log)
    requires IsUse(log, i, id) && IsResult(log, j, id) && e != log[j] && CompactOf(cap, log, uses, e, p)
    ensures i !in p.hides && j !in p.hides
  {
    OtherPair(log, Apply(log).value, uses, e, i, j, id);
  }

  lemma InvParts(log: seq<Event>)
    requires Inv(log)
    ensures Dense(log) && ToolDiscipline(log)
  {
  }

  lemma OutputIsText(cap: ToolOutputCap, p: Payload)
    requires p.ToolResult?
    ensures cap.Output(p) == OutputText(p.output)
  {
  }

  lemma OrderedPair(log: seq<Event>, i: int, j: int, id: ToolId)
    requires ToolDiscipline(log) && IsUse(log, i, id) && IsResult(log, j, id)
    requires forall x :: x in UseNums(log) ==> IsUse(log, UseNums(log)[x], x)
    requires forall k, x :: IsUse(log, k, x) ==> x in UseNums(log)
    ensures i < j && id in UseNums(log) && UseNums(log)[id] == i
  {
    var k :| k < j && IsUse(log, k, id);
  }

  /** The pair of another capped result holds neither half of this one. */
  lemma OtherPair(
    log: seq<Event>, stream: seq<Event>, uses: map<ToolId, int>, e: Event, i: int, j: int, id: ToolId)
    requires Inv(log) && Apply(log).Success? && stream == Apply(log).value && e in stream && e.payload.ToolResult?
    requires uses == UseNums(log) && e.payload.toolUseId in uses && IsUse(log, i, id) && IsResult(log, j, id)
    requires e != log[j]
    ensures uses[e.payload.toolUseId] !in {i, j} && e.num !in {i, j}
  {
    UseNumsOk(log);
    RenderedEvents(log, Live(log), e);
    var k :| 0 <= k < |log| && log[k] == e;
    assert IsResult(log, k, e.payload.toolUseId);
    assert IsUse(log, uses[e.payload.toolUseId], e.payload.toolUseId);
  }
}
