/** The state machine behind a streamed Gemini response. */
module GeminiStreams {
  import opened Wrappers
  import opened JsonValues
  import opened StreamEvents
  import opened Text

  /** `args` that are no object count as an empty one. */
  datatype FunctionCall = FunctionCall(name: string, args: Json)

  /** The functionCall key of a part: not there, there but empty or null, or a call. */
  datatype CallField = NoKey | EmptyCall | Calls(call: FunctionCall)

  datatype Part = Part(text: string, field: CallField)

  datatype Frame =
    | Malformed(reason: string)
    | WireError(kind: string)
    | Chunk(parts: seq<Part>, finish: string)

  datatype State = State(
    events: seq<StreamEvent>,
    textParts: seq<string>,
    stop: string,
    calls: seq<Tool>,
    finishSeen: bool)

  const INITIAL := State([TurnStarted], [], "other", [], false)

  function StopReason(finish: string): string {
    match finish
    case "STOP" => "end_turn"
    case "MAX_TOKENS" => "max_tokens"
    case "SAFETY" => "refusal"
    case "RECITATION" => "refusal"
    case _ => "other"
  }

  function AsDict(v: Json): Json {
    if v.Dict? then v else EMPTY_DICT
  }

  /** Ids are counted from zero in every response. */
  function CallId(k: nat): string {
    "gemini_fc_" + NatText(k)
  }

  function NewCall(k: nat, call: FunctionCall): Tool {
    Tool(CallId(k), call.name, [], AsDict(call.args), true)
  }

  function WithText(s: State, text: string): State {
    if text == "" then s else s.(events := s.events + [TextDelta(text)], textParts := s.textParts + [text])
  }

  function WithCall(s: State, call: FunctionCall): State {
    var tool := NewCall(|s.calls|, call);
    s.(calls := s.calls + [tool],
       events := s.events + [ToolBegin(tool.id, tool.name)] + [ToolEnd(tool.id, tool.arguments)])
  }

  function StepPart(s: State, part: Part): Stepped<State> {
    var read := WithText(s, part.text);
    if !part.field.Calls? then Next(read)
    else if part.field.call.name == "" then Raised(read, "invalid_tool")
    else Next(WithCall(read, part.field.call))
  }

  function StepParts(s: State, parts: seq<Part>): Stepped<State> {
    if parts == [] then Next(s)
    else
      var before := StepParts(s, parts[..|parts| - 1]);
      if before.Raised? then before else StepPart(before.state, parts[|parts| - 1])
  }

  function Step(s: State, frame: Frame): Stepped<State> {
    match frame
    case Malformed(reason) => Raised(s, reason)
    case WireError(kind) => Raised(s, kind)
    case Chunk(parts, finish) =>
      if s.finishSeen then Raised(s, "invalid_order")
      else
        var after := StepParts(s, parts);
        if after.Raised? || finish == "" then after
        else Next(after.state.(finishSeen := true, stop := StopReason(finish)))
  }

  function Steps(frames: seq<Frame>): Stepped<State> {
    if frames == [] then Next(INITIAL)
    else
      var before := Steps(frames[..|frames| - 1]);
      if before.Raised? then before else Step(before.state, frames[|frames| - 1])
  }

  function CallUses(calls: seq<Tool>): (r: seq<StreamEvent>)
    ensures |r| == |calls| && forall k :: 0 <= k < |r| ==> r[k] == UseOf(calls[k])
  {
    seq(|calls|, k requires 0 <= k < |calls| => UseOf(calls[k]))
  }

  function Emission(frames: seq<Frame>, broken: Option<string>): (seq<StreamEvent>, bool) {
    var end := Steps(frames);
    if end.Raised? then (end.state.events + [TurnFailed(end.error)], false)
    else if broken.Some? then (end.state.events + [TurnFailed(broken.value)], false)
    else if !end.state.finishSeen then (end.state.events + [TurnFailed("missing_terminal")], false)
    else
      (end.state.events + [TurnCompleted(end.state.stop), Message(Concat(end.state.textParts), end.state.stop)]
       + CallUses(end.state.calls), true)
  }

  // ---- The machine -----------------------------------------------------------------------------------------

  class GeminiStream {
    const out: TurnOutput
    var tools: seq<Tool>
    var finishSeen: bool

    ghost function Now(): State
      reads this, out
    {
      State(out.events, out.textParts, out.stop, tools, finishSeen)
    }

    constructor ()
      ensures fresh(out) && Now() == INITIAL.(events := [])
    {
      out := new TurnOutput();
      tools, finishSeen := [], false;
    }

    method Data(frame: Frame) returns (raised: Option<string>)
      modifies this, out
      ensures Step(old(Now()), frame) == if raised.None? then Next(Now()) else Raised(Now(), raised.value)
    {
      if frame.Malformed? { return Some(frame.reason); }
      if frame.WireError? { return Some(frame.kind); }
      if finishSeen { return Some("invalid_order"); }
      ghost var s := Now();
      var parts := frame.parts;
      var i := 0;
      while i < |parts|
        invariant 0 <= i <= |parts| && StepParts(s, parts[..i]) == Next(Now())
      {
        assert parts[..i + 1][..i] == parts[..i];
        raised := HandlePart(parts[i]);
        if raised.Some? {
          RaisedPartsStay(s, parts, i + 1);
          return;
        }
        i := i + 1;
      }
      assert parts[..i] == parts;
      if frame.finish != "" {
        finishSeen := true;
        out.stop := StopReason(frame.finish);
      }
      raised := None;
    }

    method HandlePart(part: Part) returns (raised: Option<string>)
      modifies `tools, out`events, out`textParts
      ensures StepPart(old(Now()), part) == if raised.None? then Next(Now()) else Raised(Now(), raised.value)
    {
      out.EmitText(part.text);
      if part.field.Calls? {
        var call := part.field.call;
        if call.name == "" { return Some("invalid_tool"); }
        var tool := NewCall(|tools|, call);
        tools := tools + [tool];
        out.Emit(ToolBegin(tool.id, tool.name));
        out.Emit(ToolEnd(tool.id, tool.arguments));
      }
      raised := None;
    }

    /** The whole stream: a failure anywhere, of the connection included, emits one failure event. */
    method RunStream(frames: seq<Frame>, broken: Option<string>) returns (ok: bool)
      requires Now() == INITIAL.(events := [])
      modifies this, out
      ensures (out.events, ok) == Emission(frames, broken)
    {
      out.Emit(TurnStarted);
      assert Now() == INITIAL;
      var i := 0;
      while i < |frames|
        invariant 0 <= i <= |frames| && Steps(frames[..i]) == Next(Now())
      {
        assert frames[..i + 1][..i] == frames[..i];
        var raised := Data(frames[i]);
        if raised.Some? {
          RaisedStays(frames, i + 1);
          out.Emit(TurnFailed(raised.value));
          return false;
        }
        i := i + 1;
      }
      assert frames[..i] == frames;
      if broken.Some? || !finishSeen {
        out.Emit(TurnFailed(if broken.Some? then broken.value else "missing_terminal"));
        return false;
      }
      out.Complete();
      EmitCalls();
      ok := true;
    }

    method EmitCalls()
      modifies out`events
      ensures out.events == old(out.events) + CallUses(tools)
    {
      var i := 0;
      while i < |tools|
        invariant 0 <= i <= |tools| && out.events == old(out.events) + CallUses(tools[..i])
      {
        assert CallUses(tools[..i + 1]) == CallUses(tools[..i]) + [UseOf(tools[i])];
        out.Emit(UseOf(tools[i]));
        i := i + 1;
      }
      assert tools[..i] == tools;
    }
  }

  lemma {:induction false} RaisedPartsStay(s: State, parts: seq<Part>, n: nat)
    requires n <= |parts| && StepParts(s, parts[..n]).Raised?
    ensures StepParts(s, parts) == StepParts(s, parts[..n])
    decreases |parts|
  {
    if n < |parts| {
      assert parts[..|parts| - 1][..n] == parts[..n];
      RaisedPartsStay(s, parts[..|parts| - 1], n);
    } else {
      assert parts[..n] == parts;
    }
  }

  lemma {:induction false} RaisedStays(frames: seq<Frame>, n: nat)
    requires n <= |frames| && Steps(frames[..n]).Raised?
    ensures Steps(frames) == Steps(frames[..n])
    decreases |frames|
  {
    if n < |frames| {
      assert frames[..|frames| - 1][..n] == frames[..n];
      RaisedStays(frames[..|frames| - 1], n);
    } else {
      assert frames[..n] == frames;
    }
  }
}
