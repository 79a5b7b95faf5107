/**
  What a streamed turn emits: progress events for observers, and at the end either the events the log keeps
  or one failure.
  */
module StreamEvents {
  import opened Wrappers
  import opened JsonValues
  import opened Events
  import opened Sorting
  import opened Text

  datatype StreamEvent =
    | TurnStarted
    | TextDelta(chunk: string)
    | ToolBegin(id: string, name: string)
    | ArgumentDelta(id: string, chunk: string)
    | ToolEnd(id: string, arguments: Json)
    | TurnCompleted(stop: string)
    | TurnFailed(error: string)
    | Message(text: string, stop: string)
    | Use(useId: ToolId, name: string, arguments: Json)

  /** The result of one frame: the machine goes on, or raises in the state it got to. */
  datatype Stepped<S> = Next(state: S) | Raised(state: S, error: string)

  /** JSON text to value; `None` stands for a decode error. */
  type Loads = string -> Option<Json>

  /** A tool call under assembly; `begun` says that its beginning was emitted. */
  datatype Tool = Tool(id: string, name: string, chunks: seq<string>, arguments: Json, begun: bool)

  /** The id a stream gives a tool: none for one that counts as false, and otherwise its text. */
  function SentId(id: ToolId): string {
    if IsFalse(id) then "" else Printed(id).text
  }

  predicate IsObject(loads: Loads, text: string) {
    loads(text).Some? && loads(text).value.Dict?
  }

  /** No chunks are no arguments; otherwise the joined chunks must be a JSON object. */
  function ParseArguments(loads: Loads, chunks: seq<string>): Option<Json> {
    if chunks == [] then Some(EMPTY_DICT)
    else
      var parsed := loads(Concat(chunks));
      if parsed.Some? && parsed.value.Dict? then parsed else None
  }

  /** Tools by index, remembering the order in which the indexes came up. */
  datatype ToolTable = ToolTable(order: seq<int>, byIndex: map<int, Tool>) {

    ghost predicate Valid() {
      && (forall i :: i in order <==> i in byIndex)
      && (forall j, k :: 0 <= j < k < |order| ==> order[j] != order[k])
    }

    function Put(index: int, tool: Tool): ToolTable {
      ToolTable(if index in byIndex then order else order + [index], byIndex[index := tool])
    }
  }

  const NO_TOOLS := ToolTable([], map[])

  lemma PutKeepsValid(t: ToolTable, index: int, tool: Tool)
    requires t.Valid()
    ensures t.Put(index, tool).Valid()
  {
  }

  // ---- Reading an emission ---------------------------------------------------------------------------------

  predicate IsProgress(e: StreamEvent) {
    e.TextDelta? || e.ToolBegin? || e.ArgumentDelta? || e.ToolEnd?
  }

  predicate IsDurable(e: StreamEvent) {
    e.Message? || e.Use?
  }

  function Texts(events: seq<StreamEvent>): seq<string> {
    if events == [] then []
    else
      var e := events[|events| - 1];
      Texts(events[..|events| - 1]) + (if e.TextDelta? then [e.chunk] else [])
  }

  /** The names under which a tool id was begun. */
  function Begins(events: seq<StreamEvent>, id: string): seq<string> {
    if events == [] then []
    else
      var e := events[|events| - 1];
      Begins(events[..|events| - 1], id) + (if e.ToolBegin? && e.id == id then [e.name] else [])
  }

  function ArgumentChunks(events: seq<StreamEvent>, id: string): seq<string> {
    if events == [] then []
    else
      var e := events[|events| - 1];
      ArgumentChunks(events[..|events| - 1], id) + (if e.ArgumentDelta? && e.id == id then [e.chunk] else [])
  }

  /** The arguments with which a tool id was ended. */
  function Ends(events: seq<StreamEvent>, id: string): seq<Json> {
    if events == [] then []
    else
      var e := events[|events| - 1];
      Ends(events[..|events| - 1], id) + (if e.ToolEnd? && e.id == id then [e.arguments] else [])
  }

  lemma Emitted(events: seq<StreamEvent>, e: StreamEvent, id: string)
    ensures var to := events + [e];
            && Texts(to) == Texts(events) + (if e.TextDelta? then [e.chunk] else [])
            && Begins(to, id) == Begins(events, id) + (if e.ToolBegin? && e.id == id then [e.name] else [])
            && ArgumentChunks(to, id)
               == ArgumentChunks(events, id) + (if e.ArgumentDelta? && e.id == id then [e.chunk] else [])
            && Ends(to, id) == Ends(events, id) + (if e.ToolEnd? && e.id == id then [e.arguments] else [])
  {
    assert (events + [e])[..|events|] == events;
  }

  /** What `Emitted` says, as one relation between the emissions before and after. */
  ghost predicate EmittedTo(events: seq<StreamEvent>, e: StreamEvent, id: string, to: seq<StreamEvent>) {
    && Begins(to, id) == Begins(events, id) + (if e.ToolBegin? && e.id == id then [e.name] else [])
    && ArgumentChunks(to, id)
       == ArgumentChunks(events, id) + (if e.ArgumentDelta? && e.id == id then [e.chunk] else [])
    && Ends(to, id) == Ends(events, id) + (if e.ToolEnd? && e.id == id then [e.arguments] else [])
  }

  /** A tool whose block is open: begun once, not ended, its chunks those emitted. */
  ghost predicate Streaming(events: seq<StreamEvent>, t: Tool) {
    Begins(events, t.id) == [t.name] && ArgumentChunks(events, t.id) == t.chunks && Ends(events, t.id) == []
  }

  /** A finished tool: begun once, ended once, with the parse of the emitted chunks. */
  ghost predicate Finished(loads: Loads, events: seq<StreamEvent>, t: Tool) {
    && Begins(events, t.id) == [t.name] && Ends(events, t.id) == [t.arguments]
    && ArgumentChunks(events, t.id) == t.chunks && ParseArguments(loads, t.chunks) == Some(t.arguments)
  }

  ghost predicate Silent(events: seq<StreamEvent>, id: string) {
    Begins(events, id) == [] && ArgumentChunks(events, id) == [] && Ends(events, id) == []
  }

  /** No tool has this id. */
  ghost predicate NoToolHas(tools: ToolTable, id: string) {
    forall i :: i in tools.byIndex ==> tools.byIndex[i].id != id
  }

  // ---- The shape of an emission ------------------------------------------------------------------------------

  /** Started, then progress, then a completion with its message and uses, or one failure and nothing to keep. */
  ghost predicate WellShaped(events: seq<StreamEvent>, ok: bool) {
    exists progress: seq<StreamEvent>, tail: seq<StreamEvent> ::
      && events == [TurnStarted] + progress + tail
      && (forall e :: e in progress ==> IsProgress(e))
      && if ok then CompletedTail(progress, tail) else |tail| == 1 && tail[0].TurnFailed?
  }

  ghost predicate CompletedTail(progress: seq<StreamEvent>, tail: seq<StreamEvent>) {
    && |tail| >= 2 && tail[0].TurnCompleted? && tail[1].Message?
    && tail[1].stop == tail[0].stop && tail[1].text == Concat(Texts(progress))
    && forall e :: e in tail[2..] ==> e.Use?
  }

  /** Before the end: started, then progress, with these text parts. */
  ghost predicate Underway(events: seq<StreamEvent>, textParts: seq<string>) {
    && events != [] && events[0] == TurnStarted
    && (forall e :: e in events[1..] ==> IsProgress(e))
    && Texts(events[1..]) == textParts
  }

  lemma UnderwayMore(events: seq<StreamEvent>, textParts: seq<string>, e: StreamEvent)
    requires Underway(events, textParts) && IsProgress(e)
    ensures Underway(events + [e], textParts + if e.TextDelta? then [e.chunk] else [])
  {
    assert (events + [e])[1..] == events[1..] + [e];
    Emitted(events[1..], e, "");
  }

  lemma UnderwayCompletes(events: seq<StreamEvent>, textParts: seq<string>, stop: string, uses: seq<StreamEvent>)
    requires Underway(events, textParts) && forall e :: e in uses ==> e.Use?
    ensures WellShaped(events + [TurnCompleted(stop), Message(Concat(textParts), stop)] + uses, true)
  {
    var end := [TurnCompleted(stop), Message(Concat(textParts), stop)];
    var progress, tail := events[1..], end + uses;
    assert tail[2..] == uses;
    assert events + end + uses == [TurnStarted] + progress + tail;
    assert CompletedTail(progress, tail);
  }

  lemma UnderwayFails(events: seq<StreamEvent>, textParts: seq<string>, error: string)
    requires Underway(events, textParts)
    ensures WellShaped(events + [TurnFailed(error)], false)
  {
    assert events + [TurnFailed(error)] == [TurnStarted] + events[1..] + [TurnFailed(error)];
  }

  /** The events the log keeps. */
  function Kept(events: seq<StreamEvent>): (r: seq<StreamEvent>)
    ensures forall e :: e in r ==> IsDurable(e)
  {
    if events == [] then []
    else
      var e := events[|events| - 1];
      Kept(events[..|events| - 1]) + (if IsDurable(e) then [e] else [])
  }

  lemma {:induction false} KeptConcat(a: seq<StreamEvent>, b: seq<StreamEvent>)
    ensures Kept(a + b) == Kept(a) + Kept(b)
  {
    if b == [] {
      assert a + b == a;
    } else {
      assert (a + b)[..|a + b| - 1] == a + b[..|b| - 1];
      KeptConcat(a, b[..|b| - 1]);
    }
  }

  lemma {:induction false} KeptOfKind(events: seq<StreamEvent>, durable: bool)
    requires forall e :: e in events ==> IsDurable(e) == durable
    ensures Kept(events) == if durable then events else []
  {
    if events != [] {
      KeptOfKind(events[..|events| - 1], durable);
      assert events[|events| - 1] in events;
    }
  }

  /** A failed stream leaves nothing in the log; a successful one its message first, and then its uses. */
  lemma KeptByShape(events: seq<StreamEvent>, ok: bool)
    requires WellShaped(events, ok)
    ensures !ok ==> Kept(events) == []
    ensures ok ==> Kept(events) != [] && Kept(events)[0].Message? && forall e :: e in Kept(events)[1..] ==> e.Use?
  {
    hide Kept;
    var progress: seq<StreamEvent>, tail: seq<StreamEvent> :|
      && events == [TurnStarted] + progress + tail
      && (forall e :: e in progress ==> IsProgress(e))
      && if ok then CompletedTail(progress, tail) else |tail| == 1 && tail[0].TurnFailed?;
    var head := [TurnStarted] + progress;
    KeptOfKind(head, false);
    KeptConcat(head, tail);
    if ok {
      assert tail == tail[..1] + tail[1..];
      KeptConcat(tail[..1], tail[1..]);
      KeptOfKind(tail[..1], false);
      assert forall e :: e in tail[1..] ==> e == tail[1] || e in tail[2..];
      KeptOfKind(tail[1..], true);
      assert tail[1..][1..] == tail[2..];
    } else {
      KeptOfKind(tail, false);
    }
  }

  lemma KeptAfterProgress(events: seq<StreamEvent>, textParts: seq<string>, stop: string, uses: seq<StreamEvent>)
    requires Underway(events, textParts) && forall e :: e in uses ==> e.Use?
    ensures Kept(events + [TurnCompleted(stop), Message(Concat(textParts), stop)] + uses)
         == [Message(Concat(textParts), stop)] + uses
  {
    var done, message := TurnCompleted(stop), Message(Concat(textParts), stop);
    assert events + [done, message] + uses == (events + [done]) + ([message] + uses);
    forall e | e in events + [done] ensures !IsDurable(e) {
      assert e == events[0] || e in events[1..] || e == done;
    }
    KeptOfKind(events + [done], false);
    KeptOfKind([message] + uses, true);
    KeptConcat(events + [done], [message] + uses);
  }

  lemma {:induction false} SilentTail(events: seq<StreamEvent>, tail: seq<StreamEvent>, id: string)
    requires forall e :: e in tail ==> !IsProgress(e)
    ensures Begins(events + tail, id) == Begins(events, id) && Ends(events + tail, id) == Ends(events, id)
    ensures ArgumentChunks(events + tail, id) == ArgumentChunks(events, id)
  {
    if tail == [] {
      assert events + tail == events;
    } else {
      var n := |tail| - 1;
      assert (events + tail)[..|events| + n] == events + tail[..n];
      assert tail[n] in tail;
      SilentTail(events, tail[..n], id);
    }
  }

  /** Every use was begun once and ended once, with the parse of its deltas; and every tool begun is used. */
  ghost predicate UsesMatchDeltas(loads: Loads, events: seq<StreamEvent>, uses: seq<StreamEvent>) {
    && (forall k :: 0 <= k < |uses| && uses[k].Use? ==>
          && uses[k].useId.TextId?
          && var id := uses[k].useId.text;
             && Begins(events, id) == [uses[k].name] && Ends(events, id) == [uses[k].arguments]
             && ParseArguments(loads, ArgumentChunks(events, id)) == Some(uses[k].arguments))
    && (forall id :: Begins(events, id) != [] ==>
          exists k :: 0 <= k < |uses| && uses[k].Use? && uses[k].useId == TextId(id))
  }

  lemma FinishedToolsMatch(loads: Loads, events: seq<StreamEvent>, tail: seq<StreamEvent>, table: ToolTable)
    requires table.Valid() && forall i :: i in table.byIndex ==> Finished(loads, events, table.byIndex[i])
    requires forall id :: NoToolHas(table, id) ==> Silent(events, id)
    requires forall e :: e in tail ==> !IsProgress(e)
    ensures UsesMatchDeltas(loads, events + tail, Uses(table))
  {
    var indexes, uses := Sorted(table.order), Uses(table);
    forall k | 0 <= k < |uses|
      ensures Finished(loads, events, table.byIndex[indexes[k]]) && uses[k] == UseOf(table.byIndex[indexes[k]])
      ensures uses[k].useId.TextId?
      ensures Begins(events + tail, uses[k].useId.text) == Begins(events, uses[k].useId.text)
      ensures Ends(events + tail, uses[k].useId.text) == Ends(events, uses[k].useId.text)
      ensures ArgumentChunks(events + tail, uses[k].useId.text) == ArgumentChunks(events, uses[k].useId.text)
    {
      assert indexes[k] in indexes;
      SilentTail(events, tail, uses[k].useId.text);
    }
    forall id | Begins(events + tail, id) != []
      ensures exists k :: 0 <= k < |uses| && uses[k].Use? && uses[k].useId == TextId(id)
    {
      SilentTail(events, tail, id);
      assert !NoToolHas(table, id);
      var i :| i in table.byIndex && table.byIndex[i].id == id;
      var k :| 0 <= k < |indexes| && indexes[k] == i;
      assert uses[k] == UseOf(table.byIndex[i]);
    }
  }

  // ---- The output of a turn --------------------------------------------------------------------------------

  class TurnOutput {
    var events: seq<StreamEvent>
    var textParts: seq<string>
    var stop: string

    constructor ()
      ensures events == [] && textParts == [] && stop == "other"
    {
      events, textParts, stop := [], [], "other";
    }

    method Emit(e: StreamEvent)
      modifies `events
      ensures events == old(events) + [e]
    {
      events := events + [e];
    }

    method EmitText(chunk: string)
      modifies `events, `textParts
      ensures chunk == "" ==> events == old(events) && textParts == old(textParts)
      ensures chunk != "" ==> events == old(events) + [TextDelta(chunk)] && textParts == old(textParts) + [chunk]
    {
      if chunk == "" { return; }
      textParts := textParts + [chunk];
      Emit(TextDelta(chunk));
    }

    method Complete()
      modifies `events
      ensures events == old(events) + [TurnCompleted(stop), Message(Concat(textParts), stop)]
    {
      Emit(TurnCompleted(stop));
      Emit(Message(Concat(textParts), stop));
    }
  }

  // ---- Uses in index order ---------------------------------------------------------------------------------

  function UseOf(t: Tool): StreamEvent {
    Use(TextId(t.id), t.name, t.arguments)
  }

  function UsesOf(tools: map<int, Tool>, indexes: seq<int>): (r: seq<StreamEvent>)
    requires forall k :: 0 <= k < |indexes| ==> indexes[k] in tools
    ensures |r| == |indexes|
    ensures forall k :: 0 <= k < |r| ==> indexes[k] in tools && r[k] == UseOf(tools[indexes[k]])
  {
    if indexes == [] then []
    else
      var n := |indexes| - 1;
      UsesOf(tools, indexes[..n]) + [UseOf(tools[indexes[n]])]
  }

  /** The uses of a finished turn, by ascending index. */
  function Uses(table: ToolTable): (r: seq<StreamEvent>)
    requires table.Valid()
    ensures forall e :: e in r ==> e.Use?
  {
    assert forall k :: 0 <= k < |Sorted(table.order)| ==> Sorted(table.order)[k] in Sorted(table.order);
    UsesOf(table.byIndex, Sorted(table.order))
  }

  lemma UsesOfNext(tools: map<int, Tool>, indexes: seq<int>, k: nat)
    requires k < |indexes| && forall j :: 0 <= j < |indexes| ==> indexes[j] in tools
    ensures UsesOf(tools, indexes[..0]) == []
    ensures UsesOf(tools, indexes[..k + 1]) == UsesOf(tools, indexes[..k]) + [UseOf(tools[indexes[k]])]
  {
    assert indexes[..k + 1][..k] == indexes[..k];
  }

  method EmitUses(out: TurnOutput, table: ToolTable)
    requires table.Valid()
    modifies out`events
    ensures out.events == old(out.events) + Uses(table)
  {
    hide Sorted, UsesOf;
    var indexes := Sorted(table.order);
    ghost var before := out.events;
    assert forall k :: 0 <= k < |indexes| ==> indexes[k] in indexes;
    var k := 0;
    while k < |indexes|
      invariant 0 <= k <= |indexes| && out.events == before + UsesOf(table.byIndex, indexes[..k])
    {
      UsesOfNext(table.byIndex, indexes, k);
      out.Emit(UseOf(table.byIndex[indexes[k]]));
      k := k + 1;
    }
    assert indexes[..k] == indexes;
  }
}
