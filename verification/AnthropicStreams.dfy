/** The state machine behind a streamed Anthropic message. */
module AnthropicStreams {
  import opened Wrappers
  import opened JsonValues
  import opened StreamEvents
  import opened Text

  datatype Delta = TextPiece(text: string) | ArgumentPiece(json: string) | UnknownDelta

  /** A frame, by what the machine reads of it; `Malformed` is no JSON object, or one without a type. */
  datatype Frame =
    | Malformed(reason: string)
    | WireError(kind: string)
    | Ping
    | MessageStart
    | BlockStart(index: int, kind: string, id: string, name: string)
    | BlockDelta(index: int, delta: Delta)
    | BlockStop(index: int)
    | MessageDelta(stopReason: string)
    | MessageStop
    | Unknown

  datatype State = State(
    events: seq<StreamEvent>,
    textParts: seq<string>,
    stop: string,
    tools: ToolTable,
    open: map<int, string>,
    started: bool,
    stopped: bool,
    stopSeen: bool)

  const INITIAL := State([TurnStarted], [], "other", NO_TOOLS, map[], false, false, false)

  function StopReason(stop: string): string {
    if stop in {"end_turn", "max_tokens", "tool_use", "stop_sequence", "refusal"} then stop else "other"
  }

  // ---- One frame -------------------------------------------------------------------------------------------

  function Step(loads: Loads, s: State, frame: Frame): Stepped<State> {
    match frame
    case Malformed(reason) => Raised(s, reason)
    case WireError(kind) => Raised(s, kind)
    case Ping => Next(s)
    case Unknown => Next(s)
    case MessageStart =>
      if s.started then Raised(s, "duplicate_start") else Next(s.(started := true))
    case MessageStop =>
      if !s.started then Raised(s, "invalid_order")
      else if s.stopped then Raised(s, "duplicate_terminal")
      else if s.open != map[] then Raised(s, "incomplete_block")
      else if !s.stopSeen then Raised(s, "missing_stop_reason")
      else Next(s.(stopped := true))
    case BlockStart(index, kind, id, name) =>
      if !Active(s) then Raised(s, "invalid_order") else StepStart(s, index, kind, id, name)
    case BlockDelta(index, delta) =>
      if !Active(s) || index !in s.open then Raised(s, "invalid_order") else StepDelta(s, index, delta)
    case BlockStop(index) =>
      if !Active(s) || index !in s.open then Raised(s, "invalid_order") else StepStop(loads, s, index)
    case MessageDelta(stopReason) =>
      if !Active(s) then Raised(s, "invalid_order")
      else if stopReason == "" then Next(s)
      else if s.stopSeen then Raised(s, "duplicate_terminal")
      else Next(s.(stop := StopReason(stopReason), stopSeen := true))
  }

  predicate Active(s: State) {
    s.started && !s.stopped
  }

  function StepStart(s: State, index: int, kind: string, id: string, name: string): Stepped<State> {
    if index in s.open then Raised(s, "duplicate_block_start")
    else if kind == "" then Raised(s, "invalid_frame")
    else
      var begun := s.(open := s.open[index := kind]);
      if kind != "tool_use" then Next(begun)
      else if id == "" || name == "" then Raised(begun, "invalid_tool")
      else Next(begun.(
        tools := s.tools.Put(index, Tool(id, name, [], EMPTY_DICT, true)),
        events := s.events + [ToolBegin(id, name)]))
  }

  function StepDelta(s: State, index: int, delta: Delta): Stepped<State>
    requires index in s.open
  {
    match delta
    case TextPiece(text) =>
      if s.open[index] == "tool_use" then Raised(s, "invalid_frame")
      else if text == "" then Next(s)
      else Next(s.(events := s.events + [TextDelta(text)], textParts := s.textParts + [text]))
    case ArgumentPiece(json) =>
      if index !in s.tools.byIndex then Raised(s, "invalid_frame")
      else
        var tool := s.tools.byIndex[index];
        Next(s.(
          tools := s.tools.Put(index, tool.(chunks := tool.chunks + [json])),
          events := s.events + [ArgumentDelta(tool.id, json)]))
    case UnknownDelta => Raised(s, "invalid_frame")
  }

  function StepStop(loads: Loads, s: State, index: int): Stepped<State>
    requires index in s.open
  {
    var closed := s.(open := s.open - {index});
    if index !in s.tools.byIndex then Next(closed)
    else
      var tool := s.tools.byIndex[index];
      var parsed := ParseArguments(loads, tool.chunks);
      if parsed.None? then Raised(closed, "invalid_tool_arguments")
      else Next(closed.(
        tools := s.tools.Put(index, tool.(arguments := parsed.value)),
        events := s.events + [ToolEnd(tool.id, parsed.value)]))
  }

  // ---- A whole stream --------------------------------------------------------------------------------------

  function StepsFrom(loads: Loads, from: Stepped<State>, frames: seq<Frame>): Stepped<State> {
    if frames == [] then from
    else
      var before := StepsFrom(loads, from, frames[..|frames| - 1]);
      if before.Raised? then before else Step(loads, before.state, frames[|frames| - 1])
  }

  function Steps(loads: Loads, frames: seq<Frame>): Stepped<State> {
    StepsFrom(loads, Next(INITIAL), frames)
  }

  /** What is missing at the end of the stream, if anything. */
  function Incomplete(s: State): Option<string> {
    if !s.started then Some("missing_start")
    else if !s.stopped then Some("missing_terminal")
    else if !s.stopSeen then Some("missing_stop_reason")
    else None
  }

  /** The frames as far as the connection delivered them; `broken` is an error of the connection itself. */
  function Emission(loads: Loads, frames: seq<Frame>, broken: Option<string>): (r: (seq<StreamEvent>, bool))
  {
    var end := Steps(loads, frames);
    if end.Raised? then (end.state.events + [TurnFailed(end.error)], false)
    else if broken.Some? then (end.state.events + [TurnFailed(broken.value)], false)
    else if Incomplete(end.state).Some? then (end.state.events + [TurnFailed(Incomplete(end.state).value)], false)
    else
      StepsKeepTable(loads, frames);
      (end.state.events + [TurnCompleted(end.state.stop), Message(Concat(end.state.textParts), end.state.stop)]
       + Uses(end.state.tools), true)
  }

  lemma {:induction false} StepsKeepTable(loads: Loads, frames: seq<Frame>)
    ensures Steps(loads, frames).state.tools.Valid()
  {
    hide Step;
    if frames != [] {
      StepsKeepTable(loads, frames[..|frames| - 1]);
      StepKeepsTable(loads, Steps(loads, frames[..|frames| - 1]).state, frames[|frames| - 1]);
    }
  }

  lemma StepKeepsTable(loads: Loads, s: State, frame: Frame)
    requires s.tools.Valid()
    ensures Step(loads, s, frame).state.tools.Valid()
  {
  }

  // ---- The machine -----------------------------------------------------------------------------------------

  class AnthropicStream {
    const out: TurnOutput
    const loads: Loads
    var tools: ToolTable
    var openBlocks: map<int, string>
    var messageStarted: bool
    var messageStopped: bool
    var stopSeen: bool

    ghost function Now(): State
      reads this, out
    {
      State(out.events, out.textParts, out.stop, tools, openBlocks, messageStarted, messageStopped, stopSeen)
    }

    constructor (loads: Loads)
      ensures this.loads == loads && fresh(out)
      ensures Now() == INITIAL.(events := [])
    {
      out := new TurnOutput();
      this.loads := loads;
      tools, openBlocks := NO_TOOLS, map[];
      messageStarted, messageStopped, stopSeen := false, false, false;
    }

    method Data(frame: Frame) returns (raised: Option<string>)
      modifies this, out
      ensures Step(loads, old(Now()), frame) == if raised.None? then Next(Now()) else Raised(Now(), raised.value)
    {
      match frame {
        case Malformed(reason) => return Some(reason);
        case WireError(kind) => return Some(kind);
        case Ping => return None;
        case Unknown => return None;
        case MessageStart =>
          if messageStarted { return Some("duplicate_start"); }
          messageStarted := true;
        case BlockStart(index, kind, id, name) =>
          if !IsActive() { return Some("invalid_order"); }
          if index in openBlocks { return Some("duplicate_block_start"); }
          if kind == "" { return Some("invalid_frame"); }
          openBlocks := openBlocks[index := kind];
          if kind == "tool_use" {
            if id == "" || name == "" { return Some("invalid_tool"); }
            tools := tools.Put(index, Tool(id, name, [], EMPTY_DICT, true));
            out.Emit(ToolBegin(id, name));
          }
        case BlockDelta(index, delta) =>
          if !IsActive() || index !in openBlocks { return Some("invalid_order"); }
          match delta {
            case TextPiece(text) =>
              if openBlocks[index] == "tool_use" { return Some("invalid_frame"); }
              out.EmitText(text);
            case ArgumentPiece(json) =>
              if index !in tools.byIndex { return Some("invalid_frame"); }
              var tool := tools.byIndex[index];
              tools := tools.Put(index, tool.(chunks := tool.chunks + [json]));
              out.Emit(ArgumentDelta(tool.id, json));
            case UnknownDelta => return Some("invalid_frame");
          }
        case BlockStop(index) =>
          if !IsActive() || index !in openBlocks { return Some("invalid_order"); }
          openBlocks := openBlocks - {index};
          if index in tools.byIndex {
            var tool := tools.byIndex[index];
            var parsed := ParseArguments(loads, tool.chunks);
            if parsed.None? { return Some("invalid_tool_arguments"); }
            tools := tools.Put(index, tool.(arguments := parsed.value));
            out.Emit(ToolEnd(tool.id, parsed.value));
          }
        case MessageDelta(stopReason) =>
          if !IsActive() { return Some("invalid_order"); }
          if stopReason != "" {
            if stopSeen { return Some("duplicate_terminal"); }
            out.stop := StopReason(stopReason);
            stopSeen := true;
          }
        case MessageStop =>
          if !messageStarted { return Some("invalid_order"); }
          if messageStopped { return Some("duplicate_terminal"); }
          if openBlocks != map[] { return Some("incomplete_block"); }
          if !stopSeen { return Some("missing_stop_reason"); }
          messageStopped := true;
      }
      return None;
    }

    predicate IsActive()
      reads this
    {
      messageStarted && !messageStopped
    }

    method Complete() returns (raised: Option<string>)
      requires tools.Valid()
      modifies out`events
      ensures raised == Incomplete(old(Now()))
      ensures out.events == if raised.Some? then old(out.events) else
                old(out.events) + [TurnCompleted(out.stop), Message(Concat(out.textParts), out.stop)] + Uses(tools)
    {
      if !messageStarted { return Some("missing_start"); }
      if !messageStopped { return Some("missing_terminal"); }
      if !stopSeen { return Some("missing_stop_reason"); }
      out.Complete();
      EmitUses(out, tools);
      return None;
    }

    /** The whole stream: a failure anywhere, of the connection included, emits one failure event. */
    method RunStream(frames: seq<Frame>, broken: Option<string>) returns (ok: bool)
      requires Now() == INITIAL.(events := [])
      modifies this, out
      ensures (out.events, ok) == Emission(loads, frames, broken)
    {
      out.Emit(TurnStarted);
      assert Now() == INITIAL;
      var i := 0;
      while i < |frames|
        invariant 0 <= i <= |frames| && Steps(loads, frames[..i]) == Next(Now())
      {
        assert frames[..i + 1][..i] == frames[..i];
        var raised := Data(frames[i]);
        if raised.Some? {
          RaisedStays(loads, frames, i + 1);
          out.Emit(TurnFailed(raised.value));
          return false;
        }
        i := i + 1;
      }
      assert frames[..i] == frames;
      if broken.Some? {
        out.Emit(TurnFailed(broken.value));
        return false;
      }
      StepsKeepTable(loads, frames);
      var raised := Complete();
      if raised.Some? { out.Emit(TurnFailed(raised.value)); }
      ok := raised.None?;
    }
  }

  lemma {:induction false} RaisedStays(loads: Loads, frames: seq<Frame>, n: nat)
    requires n <= |frames| && Steps(loads, frames[..n]).Raised?
    ensures Steps(loads, frames) == Steps(loads, frames[..n])
    decreases |frames|
  {
    if n < |frames| {
      assert frames[..|frames| - 1][..n] == frames[..n];
      RaisedStays(loads, frames[..|frames| - 1], n);
    } else {
      assert frames[..n] == frames;
    }
  }
}
