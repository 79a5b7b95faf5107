/** The state machine behind a streamed OpenAI chat completion. */
module OpenAIStreams {
  import opened Wrappers
  import opened JsonValues
  import opened StreamEvents
  import opened Text

  /** A piece of a tool call; an empty string stands for an absent field. */
  datatype CallDelta = CallDelta(index: int, id: string, name: string, arguments: string)

  datatype Delta = Delta(content: string, calls: seq<CallDelta>)

  /** A frame, by what the machine reads of it; an empty delta counts as none. */
  datatype Frame =
    | Malformed(reason: string)
    | WireError(kind: string)
    | Chunk(delta: Option<Delta>, finish: string)
    | DoneSentinel

  datatype State = State(
    events: seq<StreamEvent>,
    textParts: seq<string>,
    stop: string,
    tools: ToolTable,
    finishSeen: bool,
    doneSeen: bool)

  const INITIAL := State([TurnStarted], [], "other", NO_TOOLS, false, false)
  const NEW_TOOL := Tool("", "", [], EMPTY_DICT, false)

  function StopReason(finish: string): string {
    match finish
    case "stop" => "end_turn"
    case "length" => "max_tokens"
    case "tool_calls" => "tool_use"
    case "function_call" => "tool_use"
    case "content_filter" => "refusal"
    case _ => "other"
  }

  // ---- One frame -------------------------------------------------------------------------------------------

  function WithText(s: State, text: string): State {
    if text == "" then s else s.(events := s.events + [TextDelta(text)], textParts := s.textParts + [text])
  }

  /** The tool after the id and name of a piece are taken over. */
  function Named(t: Tool, call: CallDelta): Tool {
    var id := if call.id != "" then call.id else t.id;
    var name := if call.name != "" then call.name else t.name;
    t.(id := id, name := name, begun := t.begun || (id != "" && name != ""))
  }

  function StepCall(s: State, call: CallDelta): (r: Stepped<State>)
    requires s.tools.Valid()
    ensures r.state.tools.Valid()
  {
    var t := if call.index in s.tools.byIndex then s.tools.byIndex[call.index] else NEW_TOOL;
    var named := Named(t, call);
    var begun := s.(
      tools := s.tools.Put(call.index, named),
      events := if named.begun && !t.begun then s.events + [ToolBegin(named.id, named.name)] else s.events);
    if call.arguments == "" then Next(begun)
    else if !named.begun then Raised(begun, "invalid_tool")
    else Next(begun.(
      tools := s.tools.Put(call.index, named.(chunks := named.chunks + [call.arguments])),
      events := begun.events + [ArgumentDelta(named.id, call.arguments)]))
  }

  function StepCalls(s: State, calls: seq<CallDelta>): (r: Stepped<State>)
    requires s.tools.Valid()
    ensures r.state.tools.Valid()
  {
    if calls == [] then Next(s)
    else
      var before := StepCalls(s, calls[..|calls| - 1]);
      if before.Raised? then before else StepCall(before.state, calls[|calls| - 1])
  }

  function EndTool(loads: Loads, s: State, index: int): (r: Stepped<State>)
    requires s.tools.Valid() && index in s.tools.byIndex
    ensures r.state.tools.Valid() && r.state.tools.order == s.tools.order
  {
    var t := s.tools.byIndex[index];
    var parsed := ParseArguments(loads, t.chunks);
    if !t.begun then Raised(s, "invalid_tool")
    else if parsed.None? then Raised(s, "invalid_tool_arguments")
    else Next(s.(
      tools := s.tools.Put(index, t.(arguments := parsed.value)),
      events := s.events + [ToolEnd(t.id, parsed.value)]))
  }

  /** Ends the first `n` tools, in the order in which they came up. */
  function EndTools(loads: Loads, s: State, n: nat): (r: Stepped<State>)
    requires s.tools.Valid() && n <= |s.tools.order|
    ensures r.state.tools.Valid() && r.state.tools.order == s.tools.order
  {
    if n == 0 then Next(s)
    else
      var before := EndTools(loads, s, n - 1);
      if before.Raised? then before
      else
        assert s.tools.order[n - 1] in before.state.tools.order;
        EndTool(loads, before.state, s.tools.order[n - 1])
  }

  function StepFinish(loads: Loads, s: State, finish: string): (r: Stepped<State>)
    requires s.tools.Valid()
    ensures r.state.tools.Valid()
  {
    if finish == "" then Next(s)
    else if s.finishSeen then Raised(s, "duplicate_terminal")
    else EndTools(loads, s.(finishSeen := true, stop := StopReason(finish)), |s.tools.order|)
  }

  function StepChunk(loads: Loads, s: State, delta: Option<Delta>, finish: string): (r: Stepped<State>)
    requires s.tools.Valid()
    ensures r.state.tools.Valid()
  {
    if delta.Some? && s.finishSeen then Raised(s, "invalid_order")
    else
      var after :=
        if delta.Some? then StepCalls(WithText(s, delta.value.content), delta.value.calls) else Next(s);
      if after.Raised? then after else StepFinish(loads, after.state, finish)
  }

  function Step(loads: Loads, s: State, frame: Frame): (r: Stepped<State>)
    requires s.tools.Valid()
    ensures r.state.tools.Valid()
  {
    match frame
    case DoneSentinel => if s.doneSeen then Raised(s, "duplicate_terminal") else Next(s.(doneSeen := true))
    case Malformed(reason) => if s.doneSeen then Raised(s, "invalid_order") else Raised(s, reason)
    case WireError(kind) => if s.doneSeen then Raised(s, "invalid_order") else Raised(s, kind)
    case Chunk(delta, finish) =>
      if s.doneSeen then Raised(s, "invalid_order") else StepChunk(loads, s, delta, finish)
  }

  // ---- A whole stream --------------------------------------------------------------------------------------

  function StepsFrom(loads: Loads, from: Stepped<State>, frames: seq<Frame>): (r: Stepped<State>)
    requires from.state.tools.Valid()
    ensures r.state.tools.Valid()
  {
    if frames == [] then from
    else
      var before := StepsFrom(loads, from, frames[..|frames| - 1]);
      if before.Raised? then before else Step(loads, before.state, frames[|frames| - 1])
  }

  function Steps(loads: Loads, frames: seq<Frame>): (r: Stepped<State>)
    ensures r.state.tools.Valid()
  {
    StepsFrom(loads, Next(INITIAL), frames)
  }

  /** What is missing at the end of the stream, if anything. */
  function Incomplete(s: State): Option<string> {
    if !s.doneSeen then Some("missing_terminal")
    else if !s.finishSeen then Some("missing_finish_reason")
    else None
  }

  function Emission(loads: Loads, frames: seq<Frame>, broken: Option<string>): (seq<StreamEvent>, bool) {
    var end := Steps(loads, frames);
    if end.Raised? then (end.state.events + [TurnFailed(end.error)], false)
    else if broken.Some? then (end.state.events + [TurnFailed(broken.value)], false)
    else if Incomplete(end.state).Some? then (end.state.events + [TurnFailed(Incomplete(end.state).value)], false)
    else
      (end.state.events + [TurnCompleted(end.state.stop), Message(Concat(end.state.textParts), end.state.stop)]
       + Uses(end.state.tools), true)
  }

  lemma {:induction false} RaisedStays(loads: Loads, frames: seq<Frame>, n: nat)
    requires n <= |frames| && Steps(loads, frames[..n]).Raised?
    ensures Steps(loads, frames) == Steps(loads, frames[..n])
    decreases |frames|
  {
    if n < |frames| {
      assert frames[..|frames| - 1][..n] == frames[..n];
      RaisedStays(loads, frames[..|frames| - 1], n);
    } else {
      assert frames[..n] == frames;
    }
  }

  // ---- The machine -----------------------------------------------------------------------------------------

  class OpenAIStream {
    const out: TurnOutput
    const loads: Loads
    var tools: ToolTable
    var finishSeen: bool
    var doneSeen: bool

    ghost function Now(): State
      reads this, out
    {
      State(out.events, out.textParts, out.stop, tools, finishSeen, doneSeen)
    }

    constructor (loads: Loads)
      ensures this.loads == loads && fresh(out)
      ensures Now() == INITIAL.(events := [])
    {
      out := new TurnOutput();
      this.loads := loads;
      tools, finishSeen, doneSeen := NO_TOOLS, false, false;
    }

    method Data(frame: Frame) returns (raised: Option<string>)
      requires tools.Valid()
      modifies this, out
      ensures Step(loads, old(Now()), frame) == if raised.None? then Next(Now()) else Raised(Now(), raised.value)
    {
      if frame.DoneSentinel? {
        if doneSeen { return Some("duplicate_terminal"); }
        doneSeen := true;
        return None;
      }
      if doneSeen { return Some("invalid_order"); }
      if frame.Malformed? { return Some(frame.reason); }
      if frame.WireError? { return Some(frame.kind); }
      if frame.delta.Some? {
        if finishSeen { return Some("invalid_order"); }
        raised := HandleDelta(frame.delta.value);
        if raised.Some? { return; }
      }
      if frame.finish != "" {
        if finishSeen { return Some("duplicate_terminal"); }
        finishSeen := true;
        out.stop := StopReason(frame.finish);
        raised := FinishTools();
        return;
      }
      return None;
    }

    method HandleDelta(delta: Delta) returns (raised: Option<string>)
      requires tools.Valid()
      modifies `tools, out
      ensures StepCalls(WithText(old(Now()), delta.content), delta.calls)
           == if raised.None? then Next(Now()) else Raised(Now(), raised.value)
    {
      hide StepCall;
      out.EmitText(delta.content);
      ghost var s := Now();
      assert s == WithText(old(Now()), delta.content);
      var calls := delta.calls;
      var i := 0;
      while i < |calls|
        invariant 0 <= i <= |calls| && StepCalls(s, calls[..i]) == Next(Now())
      {
        assert calls[..i + 1][..i] == calls[..i];
        raised := HandleCall(calls[i]);
        if raised.Some? {
          RaisedCallsStay(s, calls, i + 1);
          return;
        }
        i := i + 1;
      }
      assert calls[..i] == calls;
      raised := None;
    }

    method HandleCall(call: CallDelta) returns (raised: Option<string>)
      requires tools.Valid()
      modifies `tools, out`events
      ensures StepCall(old(Now()), call) == if raised.None? then Next(Now()) else Raised(Now(), raised.value)
    {
      var tool := if call.index in tools.byIndex then tools.byIndex[call.index] else NEW_TOOL;
      if call.id != "" { tool := tool.(id := call.id); }
      if call.name != "" { tool := tool.(name := call.name); }
      var begins := tool.id != "" && tool.name != "" && !tool.begun;
      if begins { tool := tool.(begun := true); }
      tools := tools.Put(call.index, tool);
      if begins { out.Emit(ToolBegin(tool.id, tool.name)); }
      if call.arguments != "" {
        if !tool.begun { return Some("invalid_tool"); }
        tool := tool.(chunks := tool.chunks + [call.arguments]);
        assert tools.byIndex[call.index := tool] == old(tools).byIndex[call.index := tool];
        tools := tools.Put(call.index, tool);
        out.Emit(ArgumentDelta(tool.id, call.arguments));
      }
      return None;
    }

    method FinishTools() returns (raised: Option<string>)
      requires tools.Valid()
      modifies `tools, out`events
      ensures EndTools(loads, old(Now()), |old(tools).order|)
           == if raised.None? then Next(Now()) else Raised(Now(), raised.value)
    {
      hide EndTool;
      ghost var s := Now();
      var i := 0;
      while i < |tools.order|
        invariant 0 <= i <= |tools.order| && tools.Valid() && tools.order == s.tools.order
        invariant EndTools(loads, s, i) == Next(Now())
      {
        assert tools.order[i] in tools.order;
        raised := Finish(tools.order[i]);
        if raised.Some? {
          RaisedEndsStay(loads, s, i + 1, |s.tools.order|);
          return;
        }
        i := i + 1;
      }
      raised := None;
    }

    method Finish(index: int) returns (raised: Option<string>)
      requires tools.Valid() && index in tools.byIndex
      modifies `tools, out`events
      ensures tools.Valid() && tools.order == old(tools).order
      ensures EndTool(loads, old(Now()), index) == if raised.None? then Next(Now()) else Raised(Now(), raised.value)
    {
      var tool := tools.byIndex[index];
      if !tool.begun { return Some("invalid_tool"); }
      var parsed := ParseArguments(loads, tool.chunks);
      if parsed.None? { return Some("invalid_tool_arguments"); }
      tools := tools.Put(index, tool.(arguments := parsed.value));
      out.Emit(ToolEnd(tool.id, parsed.value));
      raised := None;
    }

    method Complete() returns (raised: Option<string>)
      requires tools.Valid()
      modifies out`events
      ensures raised == Incomplete(old(Now()))
      ensures out.events == if raised.Some? then old(out.events) else
                old(out.events) + [TurnCompleted(out.stop), Message(Concat(out.textParts), out.stop)] + Uses(tools)
    {
      if !doneSeen { return Some("missing_terminal"); }
      if !finishSeen { return Some("missing_finish_reason"); }
      out.Complete();
      EmitUses(out, tools);
      return None;
    }

    /** The whole stream: a failure anywhere, of the connection included, emits one failure event. */
    method RunStream(frames: seq<Frame>, broken: Option<string>) returns (ok: bool)
      requires Now() == INITIAL.(events := [])
      modifies this, out
      ensures (out.events, ok) == Emission(loads, frames, broken)
    {
      hide StepChunk, Uses;
      out.Emit(TurnStarted);
      assert Now() == INITIAL;
      var i := 0;
      while i < |frames|
        invariant 0 <= i <= |frames| && Steps(loads, frames[..i]) == Next(Now())
      {
        assert frames[..i + 1][..i] == frames[..i];
        var raised := Data(frames[i]);
        if raised.Some? {
          RaisedStays(loads, frames, i + 1);
          out.Emit(TurnFailed(raised.value));
          return false;
        }
        i := i + 1;
      }
      assert frames[..i] == frames;
      if broken.Some? {
        out.Emit(TurnFailed(broken.value));
        return false;
      }
      var raised := Complete();
      if raised.Some? { out.Emit(TurnFailed(raised.value)); }
      ok := raised.None?;
    }
  }

  lemma {:induction false} RaisedCallsStay(s: State, calls: seq<CallDelta>, n: nat)
    requires s.tools.Valid() && n <= |calls| && StepCalls(s, calls[..n]).Raised?
    ensures StepCalls(s, calls) == StepCalls(s, calls[..n])
    decreases |calls|
  {
    if n < |calls| {
      assert calls[..|calls| - 1][..n] == calls[..n];
      RaisedCallsStay(s, calls[..|calls| - 1], n);
    } else {
      assert calls[..n] == calls;
    }
  }

  lemma {:induction false} RaisedEndsStay(loads: Loads, s: State, n: nat, last: nat)
    requires s.tools.Valid() && n <= last <= |s.tools.order| && EndTools(loads, s, n).Raised?
    ensures EndTools(loads, s, last) == EndTools(loads, s, n)
    decreases last
  {
    hide EndTool;
    if n < last { RaisedEndsStay(loads, s, n, last - 1); }
  }
}
