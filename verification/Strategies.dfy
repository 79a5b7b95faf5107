/** MarkerTail, TokenMarkerTail and ToolOutputCap: hooks that append compacts to the session log. */
module Strategies {
  import opened Wrappers
  import opened JsonValues
  import opened PythonText
  import opened Events
  import opened Mutations
  import opened Compaction
  import Utf8
  import Text

  /** What a tail strategy hides: the safe part of all messages but the last `keepRecent`. */
  function TailHides(log: seq<Event>, keepRecent: nat): (hides: seq<int>)
    requires Apply(log).Success?
  {
    var messages := MessageEvents(log);
    if |messages| <= keepRecent then []
    else SafeRange(log, Nums(messages[..|messages| - keepRecent]))
  }

  function AppendCompact(log: seq<Event>, hides: seq<int>, summary: string): seq<Event> {
    if hides == [] then log else log + [Event(|log|, Compact(hides, summary))]
  }

  datatype MarkerTail = MarkerTail(maxMessages: int, keepRecent: int, format: string) {

    predicate Valid() {
      maxMessages > keepRecent >= 0
    }

    predicate Triggered(messages: seq<Event>) {
      |messages| > maxMessages
    }

    function Next(log: seq<Event>): seq<Event>
      requires Valid() && Apply(log).Success?
    {
      if !Triggered(MessageEvents(log)) then log
      else
        var hides := TailHides(log, keepRecent);
        AppendCompact(log, hides, Text.ReplaceAll(format, "$N", Text.IntText(|hides|)))
    }

    method OnPreProjection(log: Log) returns (r: Result<(), MutationError>)
      requires Valid() && log.Valid()
      modifies log
      ensures log.Valid()
      ensures r.Success? <==> Apply(old(log.events)).Success?
      ensures log.events == if r.Success? then Next(old(log.events)) else old(log.events)
    {
      var stream := ApplyLog(log.events);
      if stream.Failure? { return Failure(stream.error); }
      var messages := Messages(stream.value);
      if |messages| <= maxMessages { return Success(()); }
      var candidates := Nums(messages[..|messages| - keepRecent]);
      var safe := ToolPairSafeRange(log.events, candidates);
      if safe == [] { return Success(()); }
      var _ := log.Append(Compact(safe, Text.ReplaceAll(format, "$N", Text.IntText(|safe|))));
      return Success(());
    }
  }

  datatype TokenMarkerTail = TokenMarkerTail(maxTokens: int, threshold: real, keepRecent: int, format: string) {

    predicate Valid() {
      maxTokens > 0 && 0.0 < threshold <= 1.0 && keepRecent >= 0
    }

    function TriggerTokens(): int {
      (maxTokens as real * threshold).Floor
    }

    predicate Triggered(messages: seq<Event>) {
      Tokens(messages) > TriggerTokens()
    }

    function Summary(hidden: nat, estimated: nat): string {
      Text.ReplaceAll(
        Text.ReplaceAll(
          Text.ReplaceAll(format, "$N", Text.IntText(hidden)),
          "$E", Text.IntText(estimated)),
        "$T", Text.IntText(TriggerTokens()))
    }

    function Next(log: seq<Event>): seq<Event>
      requires Valid() && Apply(log).Success?
    {
      var messages := MessageEvents(log);
      if !Triggered(messages) then log
      else
        var hides := TailHides(log, keepRecent);
        AppendCompact(log, hides, Summary(|hides|, Tokens(messages)))
    }

    method OnPreProjection(log: Log) returns (r: Result<(), MutationError>)
      requires Valid() && log.Valid()
      modifies log
      ensures log.Valid()
      ensures r.Success? <==> Apply(old(log.events)).Success?
      ensures log.events == if r.Success? then Next(old(log.events)) else old(log.events)
    {
      var stream := ApplyLog(log.events);
      if stream.Failure? { return Failure(stream.error); }
      var messages := Messages(stream.value);
      var estimated := EstimateTokens(messages);
      if estimated <= TriggerTokens() { return Success(()); }
      var count := |messages| - keepRecent;
      if count <= 0 { return Success(()); }
      var safe := ToolPairSafeRange(log.events, Nums(messages[..count]));
      if safe == [] { return Success(()); }
      var _ := log.Append(Compact(safe, Summary(|safe|, estimated)));
      return Success(());
    }
  }

  /** Name of the last `tool_use` with this id. */
  function ToolName(log: seq<Event>, id: ToolId): string {
    if log == [] then "unknown"
    else
      var last := log[|log| - 1].payload;
      if last.ToolUse? && last.id == id then last.name else ToolName(log[..|log| - 1], id)
  }

  datatype ToolOutputCap = ToolOutputCap(maxBytes: int, prefixBytes: int, format: string) {

    predicate Valid() {
      0 <= prefixBytes <= maxBytes && 0 < maxBytes
    }

    function Output(p: Payload): string
      requires p.ToolResult?
    {
      if p.output.None? || Falsy(p.output.value) then "" else PyStr(p.output.value)
    }

    /** The first `prefixBytes` bytes, decoded with an incomplete last character dropped. */
    function Prefix(output: string): string
      requires Valid()
    {
      var bytes := Utf8.Encode(output);
      match Utf8.Decode(if |bytes| <= prefixBytes then bytes else bytes[..prefixBytes])
      case Some((text, _)) => text
      case None => ""
    }

    function Summary(log: seq<Event>, e: Event): string
      requires Valid() && e.payload.ToolResult?
    {
      var output := Output(e.payload);
      Text.ReplaceAll(
        Text.ReplaceAll(
          Text.ReplaceAll(
            Text.ReplaceAll(format, "$TOOL", ToolName(log, e.payload.toolUseId)),
            "$CAP", Text.IntText(maxBytes)),
          "$ORIGINAL", Text.IntText(|Utf8.Encode(output)|)),
        "$PREFIX", Prefix(output))
    }

    /** The oversized results that have a call. */
    predicate Caps(uses: map<ToolId, int>, e: Event) {
      e.payload.ToolResult? && |Utf8.Encode(Output(e.payload))| > maxBytes && e.payload.toolUseId in uses
    }

    function SortedPair(a: int, b: int): seq<int> {
      if a <= b then [a, b] else [b, a]
    }

    /** The log after walking `stream`, an effective stream computed once, before the first append. */
    function Walk(log: seq<Event>, uses: map<ToolId, int>, stream: seq<Event>): seq<Event>
      requires Valid()
    {
      if stream == [] then log
      else
        var before := Walk(log, uses, stream[..|stream| - 1]);
        var e := stream[|stream| - 1];
        if !Caps(uses, e) then before
        else
          before + [Event(|before|, Compact(SortedPair(uses[e.payload.toolUseId], e.num), Summary(before, e)))]
    }

    function Next(log: seq<Event>): seq<Event>
      requires Valid() && Apply(log).Success?
    {
      Walk(log, UseNums(log), Apply(log).value)
    }

    method OnPreProjection(log: Log) returns (r: Result<(), MutationError>)
      requires Valid() && log.Valid()
      modifies log
      ensures log.Valid()
      ensures r.Success? <==> Apply(old(log.events)).Success?
      ensures log.events == if r.Success? then Next(old(log.events)) else old(log.events)
    {
      hide ToolOutputCap.Summary, ToolOutputCap.SortedPair, Utf8.Encode, UseNums, ResultNums, Apply;
      var uses, _ := ToolPairs(log.events);
      var stream := ApplyLog(log.events);
      if stream.Failure? { return Failure(stream.error); }
      var i := 0;
      while i < |stream.value|
        invariant 0 <= i <= |stream.value|
        invariant log.Valid()
        invariant log.events == Walk(old(log.events), uses, stream.value[..i])
      {
        var e := stream.value[i];
        assert stream.value[..i + 1][..i] == stream.value[..i];
        if e.payload.ToolResult? && |Utf8.Encode(Output(e.payload))| > maxBytes && e.payload.toolUseId in uses {
          var _ := log.Append(Compact(SortedPair(uses[e.payload.toolUseId], e.num), Summary(log.events, e)));
        }
        i := i + 1;
      }
      assert stream.value[..i] == stream.value;
      return Success(());
    }
  }
}
