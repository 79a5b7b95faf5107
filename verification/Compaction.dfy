/**
  The compaction strategies: which events they hide, and the loops that compute it.
  Summaries are excluded from the message count, so a strategy never counts its own output.
  */
module Compaction {
  import opened JsonValues
  import opened Events
  import opened Mutations
  import opened Sorting

  predicate IsMessage(p: Payload) {
    p.UserMessage? || p.AssistantMessage? || p.ToolUse? || p.ToolResult?
  }

  function Messages(stream: seq<Event>): seq<Event> {
    if stream == [] then []
    else
      var last := stream[|stream| - 1];
      Messages(stream[..|stream| - 1]) + (if IsMessage(last.payload) then [last] else [])
  }

  function MessageEvents(log: seq<Event>): seq<Event>
    requires Apply(log).Success?
  {
    Messages(Apply(log).value)
  }

  function Nums(events: seq<Event>): (nums: seq<int>)
    ensures |nums| == |events|
    ensures forall i :: 0 <= i < |events| ==> nums[i] == events[i].num
  {
    seq(|events|, i requires 0 <= i < |events| => events[i].num)
  }

  // ---- Tool pairs ------------------------------------------------------------------------------

  /** Position of the last `tool_use` of each id. */
  function UseNums(log: seq<Event>): map<ToolId, int> {
    if log == [] then map[]
    else
      var last := log[|log| - 1];
      var m := UseNums(log[..|log| - 1]);
      if last.payload.ToolUse? then m[last.payload.id := last.num] else m
  }

  /** Position of the last `tool_result` of each id. */
  function ResultNums(log: seq<Event>): map<ToolId, int> {
    if log == [] then map[]
    else
      var last := log[|log| - 1];
      var m := ResultNums(log[..|log| - 1]);
      if last.payload.ToolResult? then m[last.payload.toolUseId := last.num] else m
  }

  /** What the pair of `id` forbids hiding: an unanswered use, or a pair only half of which is a candidate. */
  function Discards(uses: map<ToolId, int>, results: map<ToolId, int>, candidates: set<int>, id: ToolId): set<int>
    requires id in uses
  {
    if id !in results then {uses[id]}
    else if (uses[id] in candidates) == (results[id] in candidates) then {}
    else {uses[id], results[id]}
  }

  /** The candidates none of the pairs in `ids` forbids. */
  function Kept(uses: map<ToolId, int>, results: map<ToolId, int>, candidates: set<int>, ids: set<ToolId>): set<int>
    requires ids <= uses.Keys
  {
    set s | s in candidates && forall id :: id in ids ==> s !in Discards(uses, results, candidates, id)
  }

  function SafeSet(log: seq<Event>, candidates: set<int>): set<int> {
    Kept(UseNums(log), ResultNums(log), candidates, UseNums(log).Keys)
  }

  function AsSet(s: seq<int>): set<int> {
    set x | x in s
  }

  /** `sorted` of the members of `nums` that belong to `keep`. */
  function SortKept(nums: seq<int>, keep: set<int>): (r: seq<int>)
    ensures Ascending(r)
    ensures forall x :: x in r <==> x in nums && x in keep
  {
    if nums == [] then []
    else
      var r := SortKept(nums[1..], keep);
      assert nums == [nums[0]] + nums[1..];
      if nums[0] in keep then Insert(nums[0], r) else r
  }

  function SafeRange(log: seq<Event>, candidates: seq<int>): (r: seq<int>)
    ensures Ascending(r)
    ensures forall s :: s in r <==> s in SafeSet(log, AsSet(candidates))
  {
    SortKept(candidates, SafeSet(log, AsSet(candidates)))
  }

  method ToolPairs(log: seq<Event>) returns (uses: map<ToolId, int>, results: map<ToolId, int>)
    ensures uses == UseNums(log) && results == ResultNums(log)
  {
    uses, results := map[], map[];
    var i := 0;
    while i < |log|
      invariant 0 <= i <= |log|
      invariant uses == UseNums(log[..i]) && results == ResultNums(log[..i])
    {
      assert log[..i + 1][..i] == log[..i];
      match log[i].payload {
        case ToolUse(id, _, _) => uses := uses[id := log[i].num];
        case ToolResult(id, _, _) => results := results[id := log[i].num];
        case _ =>
      }
      i := i + 1;
    }
    assert log[..i] == log;
  }

  method ToolPairSafeRange(log: seq<Event>, candidates: seq<int>) returns (range: seq<int>)
    ensures range == SafeRange(log, candidates)
  {
    var candidateSet := AsSet(candidates);
    var safe := candidateSet;
    var uses, results := ToolPairs(log);
    var todo := uses.Keys;
    while todo != {}
      invariant todo <= uses.Keys
      invariant safe == Kept(uses, results, candidateSet, uses.Keys - todo)
      decreases todo
    {
      var id :| id in todo;
      ghost var seen := uses.Keys - todo;
      assert uses.Keys - (todo - {id}) == seen + {id};
      assert Kept(uses, results, candidateSet, seen + {id})
          == Kept(uses, results, candidateSet, seen) - Discards(uses, results, candidateSet, id);
      var useNum := uses[id];
      if id !in results {
        safe := safe - {useNum};
      } else if (useNum in candidateSet) != (results[id] in candidateSet) {
        safe := safe - {useNum, results[id]};
      }
      todo := todo - {id};
    }
    assert uses.Keys - todo == uses.Keys;
    range := SortKept(candidates, safe);
  }

  /** Only strings have characters to count. */
  function TextChars(v: Json): nat {
    if v.Str? then |v.text| else 0
  }

  function IdChars(id: ToolId): nat {
    if id.TextId? then |id.text| else 0
  }

  /** Characters in the string-valued payload fields. */
  function Chars(p: Payload): nat {
    match p
    case UserMessage(input) => TextChars(input)
    case AssistantMessage(text, stop, _) => |text| + |stop|
    case ToolUse(id, name, _) => IdChars(id) + |name|
    case ToolResult(id, output, error) =>
      IdChars(id) + (if output.Some? then TextChars(output.value) else 0)
      + (if error.Some? then |error.value| else 0)
    case _ => 0
  }

  function CharsOf(events: seq<Event>): nat {
    if events == [] then 0 else CharsOf(events[..|events| - 1]) + Chars(events[|events| - 1].payload)
  }

  /** A token is four characters, rounded up. */
  function Tokens(events: seq<Event>): (tokens: nat)
    ensures 4 * tokens >= CharsOf(events) > 4 * tokens - 4
  {
    (CharsOf(events) + 3) / 4
  }

  method EstimateTokens(events: seq<Event>) returns (tokens: nat)
    ensures tokens == Tokens(events)
  {
    var chars := 0;
    var i := 0;
    while i < |events|
      invariant 0 <= i <= |events| && chars == CharsOf(events[..i])
    {
      assert events[..i + 1][..i] == events[..i];
      chars := chars + Chars(events[i].payload);
      i := i + 1;
    }
    assert events[..i] == events;
    tokens := (chars + 3) / 4;
  }
}
