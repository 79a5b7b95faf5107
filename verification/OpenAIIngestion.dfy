/** A whole OpenAI completion turned into events, and the same completion cut into a stream. */
module OpenAIIngestion {
  import opened Wrappers
  import opened JsonValues
  import opened Events
  import opened Sorting
  import opened StreamEvents
  import opened OpenAIStreams
  import opened OpenAILaws
  import opened Text

  datatype WholeCall = WholeCall(id: string, name: string, arguments: string)

  /** A choice of the response; an absent text is empty. */
  datatype Choice = Choice(content: string, calls: seq<WholeCall>, finish: string)

  /** The ingestor forgives argument texts that are no JSON object. */
  function Forgiving(loads: Loads, text: string): Json {
    if text != "" && IsObject(loads, text) then loads(text).value else EMPTY_DICT
  }

  function WholeUse(loads: Loads, call: WholeCall): StreamEvent {
    Use(TextId(call.id), call.name, Forgiving(loads, call.arguments))
  }

  function WholeUses(loads: Loads, calls: seq<WholeCall>): (r: seq<StreamEvent>)
    ensures |r| == |calls| && forall k :: 0 <= k < |r| ==> r[k] == WholeUse(loads, calls[k])
  {
    seq(|calls|, k requires 0 <= k < |calls| => WholeUse(loads, calls[k]))
  }

  /** The events of a whole completion. */
  function IngestedChoice(loads: Loads, choice: Choice): (r: seq<StreamEvent>)
    ensures |r| == |choice.calls| + 1 && r[0].Message? && forall k :: 1 <= k < |r| ==> r[k].Use?
    ensures forall e :: e in r ==> IsDurable(e)
  {
    [Message(choice.content, StopReason(choice.finish))] + WholeUses(loads, choice.calls)
  }

  method Ingest(loads: Loads, choices: seq<Choice>) returns (r: Result<seq<StreamEvent>, string>)
    ensures r.Failure? <==> choices == []
    ensures r.Success? ==> r.value == IngestedChoice(loads, choices[0])
  {
    if choices == [] { return Failure("response has no choices"); }
    var choice := choices[0];
    var events := [Message(choice.content, StopReason(choice.finish))];
    var i := 0;
    while i < |choice.calls|
      invariant 0 <= i <= |choice.calls| && |events| == i + 1
      invariant events[0] == Message(choice.content, StopReason(choice.finish))
      invariant forall k :: 0 <= k < i ==> events[k + 1] == WholeUse(loads, choice.calls[k])
    {
      events := events + [WholeUse(loads, choice.calls[i])];
      i := i + 1;
    }
    r := Success(events);
    assert events == [events[0]] + WholeUses(loads, choice.calls);
  }

  // ---- Cutting a response into frames ------------------------------------------------------------------------

  /** A call of the response, its argument text cut into pieces. */
  datatype CutCall = CutCall(id: ToolId, name: string, pieces: seq<string>)

  function Whole(call: CutCall): WholeCall {
    WholeCall(Printed(call.id).text, call.name, Concat(call.pieces))
  }

  /** The call has an id that counts as true, and a name. */
  predicate HasName(call: CutCall) {
    !IsFalse(call.id) && call.name != ""
  }

  function TextFrames(pieces: seq<string>): seq<Frame> {
    if pieces == [] then []
    else TextFrames(pieces[..|pieces| - 1]) + [TextFrame(pieces[|pieces| - 1])]
  }

  function TextFrame(piece: string): Frame {
    Chunk(Some(Delta(piece, [])), "")
  }

  function CallFrame(call: CallDelta): Frame {
    Chunk(Some(Delta("", [call])), "")
  }

  function PieceFrames(index: int, pieces: seq<string>): seq<Frame> {
    if pieces == [] then []
    else PieceFrames(index, pieces[..|pieces| - 1]) + [CallFrame(CallDelta(index, "", "", pieces[|pieces| - 1]))]
  }

  function CallFrames(index: int, call: CutCall): seq<Frame> {
    [CallFrame(CallDelta(index, SentId(call.id), call.name, ""))] + PieceFrames(index, call.pieces)
  }

  function AllCallFrames(calls: seq<CutCall>): seq<Frame> {
    if calls == [] then []
    else AllCallFrames(calls[..|calls| - 1]) + CallFrames(|calls| - 1, calls[|calls| - 1])
  }

  function Streamed(texts: seq<string>, calls: seq<CutCall>, finish: string): seq<Frame> {
    TextFrames(texts) + AllCallFrames(calls) + [Chunk(None, finish)] + [DoneSentinel]
  }

  // ---- Running the cut response ------------------------------------------------------------------------------

  lemma {:induction false} StepsConcat(loads: Loads, from: Stepped<State>, a: seq<Frame>, b: seq<Frame>)
    requires from.state.tools.Valid()
    ensures StepsFrom(loads, from, a + b) == StepsFrom(loads, StepsFrom(loads, from, a), b)
  {
    if b == [] {
      assert a + b == a;
    } else {
      assert (a + b)[..|a + b| - 1] == a + b[..|b| - 1];
      StepsConcat(loads, from, a, b[..|b| - 1]);
    }
  }

  lemma OneStep(loads: Loads, s: State, frame: Frame)
    requires s.tools.Valid()
    ensures StepsFrom(loads, Next(s), [frame]) == Step(loads, s, frame)
  {
    assert [frame][..0] == [];
  }

  lemma {:induction false} RaisedSticks(loads: Loads, from: Stepped<State>, frames: seq<Frame>)
    requires from.Raised? && from.state.tools.Valid()
    ensures StepsFrom(loads, from, frames) == from
  {
    if frames != [] { RaisedSticks(loads, from, frames[..|frames| - 1]); }
  }

  lemma {:induction false} TextFramesRun(loads: Loads, s: State, pieces: seq<string>)
    requires s.tools.Valid() && !s.finishSeen && !s.doneSeen
    ensures var r := StepsFrom(loads, Next(s), TextFrames(pieces));
            && r.Next? && r.state == s.(events := r.state.events, textParts := r.state.textParts)
            && Concat(r.state.textParts) == Concat(s.textParts) + Concat(pieces)
  {
    hide StepsFrom, TextFrame;
    if pieces == [] {
      NoFrames(loads, Next(s));
    } else {
      var init, p := pieces[..|pieces| - 1], pieces[|pieces| - 1];
      TextFramesRun(loads, s, init);
      var before := StepsFrom(loads, Next(s), TextFrames(init)).state;
      StepsConcat(loads, Next(s), TextFrames(init), [TextFrame(p)]);
      TextFrameRuns(loads, before, p);
      assert p == "" ==> Concat(init) + p == Concat(init);
      assert Concat(s.textParts) + Concat(init) + p == Concat(s.textParts) + (Concat(init) + p);
    }
  }

  lemma TextFrameRuns(loads: Loads, s: State, piece: string)
    requires s.tools.Valid() && !s.finishSeen && !s.doneSeen
    ensures var r := StepsFrom(loads, Next(s), [TextFrame(piece)]);
            && r.Next? && r.state == s.(events := r.state.events, textParts := r.state.textParts)
            && Concat(r.state.textParts) == Concat(s.textParts) + piece
  {
    OneStep(loads, s, TextFrame(piece));
    NextPart(s.textParts, piece);
  }

  function NonEmpty(pieces: seq<string>): seq<string> {
    if pieces == [] then []
    else
      var p := pieces[|pieces| - 1];
      NonEmpty(pieces[..|pieces| - 1]) + (if p == "" then [] else [p])
  }

  /** One piece of one call is one step of the call machine. */
  lemma CallFrameRuns(loads: Loads, s: State, call: CallDelta)
    requires s.tools.Valid() && !s.finishSeen && !s.doneSeen
    ensures StepsFrom(loads, Next(s), [CallFrame(call)]) == StepCall(s, call)
  {
    hide StepCall;
    OneStep(loads, s, CallFrame(call));
    OneCall(s, call);
  }

  lemma OneCall(s: State, call: CallDelta)
    requires s.tools.Valid()
    ensures StepCalls(s, [call]) == StepCall(s, call)
  {
    hide StepCall;
    assert [call][..0] == [];
  }

  lemma {:induction false} PieceFramesRun(loads: Loads, s: State, index: int, pieces: seq<string>)
    requires s.tools.Valid() && !s.finishSeen && !s.doneSeen && index in s.tools.byIndex
    requires var t := s.tools.byIndex[index]; t.begun && t.id != "" && t.name != ""
    ensures var r := StepsFrom(loads, Next(s), PieceFrames(index, pieces));
            var t := s.tools.byIndex[index];
            r.Next? && r.state == s.(events := r.state.events,
                                     tools := s.tools.Put(index, t.(chunks := t.chunks + NonEmpty(pieces))))
  {
    hide StepsFrom, StepCall, CallFrame, Step;
    var t := s.tools.byIndex[index];
    if pieces == [] {
      NoFrames(loads, Next(s));
      assert t.chunks + [] == t.chunks;
      assert s.tools.byIndex[index := t] == s.tools.byIndex;
    } else {
      var init, p := pieces[..|pieces| - 1], pieces[|pieces| - 1];
      PieceFramesRun(loads, s, index, init);
      var before := StepsFrom(loads, Next(s), PieceFrames(index, init)).state;
      var call := CallDelta(index, "", "", p);
      StepsConcat(loads, Next(s), PieceFrames(index, init), [CallFrame(call)]);
      CallFrameRuns(loads, before, call);
      var t1 := t.(chunks := t.chunks + NonEmpty(init));
      var t2 := t.(chunks := t.chunks + NonEmpty(pieces));
      PieceStep(s, before, t1, t2, call);
      assert t.chunks + NonEmpty(init) + [p] == t.chunks + (NonEmpty(init) + [p]);
    }
  }

  lemma PieceStep(s: State, before: State, t1: Tool, t2: Tool, call: CallDelta)
    requires s.tools.Valid() && before.tools.Valid() && call.index in s.tools.byIndex && call.id == call.name == ""
    requires before == s.(events := before.events, tools := s.tools.Put(call.index, t1))
    requires t1.begun && t1.id != "" && t1.name != ""
    requires t2 == t1.(chunks := if call.arguments == "" then t1.chunks else t1.chunks + [call.arguments])
    ensures var r := StepCall(before, call);
            r.Next? && r.state == s.(events := r.state.events, tools := s.tools.Put(call.index, t2))
  {
    assert s.tools.byIndex[call.index := t1][call.index := t1] == s.tools.byIndex[call.index := t1];
    assert s.tools.byIndex[call.index := t1][call.index := t2] == s.tools.byIndex[call.index := t2];
  }

  lemma CallRuns(loads: Loads, s: State, index: int, call: CutCall)
    requires s.tools.Valid() && !s.finishSeen && !s.doneSeen && index !in s.tools.byIndex
    requires HasName(call)
    ensures var r := StepsFrom(loads, Next(s), CallFrames(index, call));
            var tool := Tool(SentId(call.id), call.name, NonEmpty(call.pieces), EMPTY_DICT, true);
            r.Next? && r.state == s.(events := r.state.events, tools := s.tools.Put(index, tool))
  {
    hide StepsFrom, StepCall, NonEmpty;
    var first := CallDelta(index, SentId(call.id), call.name, "");
    StepsConcat(loads, Next(s), [CallFrame(first)], PieceFrames(index, call.pieces));
    CallFrameRuns(loads, s, first);
    FirstPiece(s, first);
    var begun := StepCall(s, first).state;
    PieceFramesRun(loads, begun, index, call.pieces);
    var empty := Tool(SentId(call.id), call.name, [], EMPTY_DICT, true);
    var full := Tool(SentId(call.id), call.name, NonEmpty(call.pieces), EMPTY_DICT, true);
    assert [] + NonEmpty(call.pieces) == NonEmpty(call.pieces);
    assert s.tools.byIndex[index := empty][index := full] == s.tools.byIndex[index := full];
  }

  lemma FirstPiece(s: State, call: CallDelta)
    requires s.tools.Valid() && call.index !in s.tools.byIndex
    requires call.id != "" && call.name != "" && call.arguments == ""
    ensures StepCall(s, call)
         == Next(s.(events := s.events + [ToolBegin(call.id, call.name)],
                    tools := s.tools.Put(call.index, Tool(call.id, call.name, [], EMPTY_DICT, true))))
  {
  }

  // ---- All calls ---------------------------------------------------------------------------------------------

  function UpTo(n: nat): (r: seq<int>)
    ensures |r| == n && forall k :: 0 <= k < n ==> r[k] == k
  {
    seq(n, k => k)
  }

  /** The tool of a call before the completion is finished. */
  function Gathered(call: CutCall): Tool {
    Tool(SentId(call.id), call.name, NonEmpty(call.pieces), EMPTY_DICT, true)
  }

  ghost predicate Gathers(tools: ToolTable, calls: seq<CutCall>) {
    && tools.order == UpTo(|calls|)
    && (forall i :: i in tools.byIndex <==> 0 <= i < |calls|)
    && (forall i :: 0 <= i < |calls| ==> i in tools.byIndex && tools.byIndex[i] == Gathered(calls[i]))
  }

  lemma {:induction false} AllCallsRun(loads: Loads, s: State, calls: seq<CutCall>)
    requires s.tools == NO_TOOLS && !s.finishSeen && !s.doneSeen
    requires forall c :: c in calls ==> HasName(c)
    ensures var r := StepsFrom(loads, Next(s), AllCallFrames(calls));
            && r.Next? && r.state == s.(events := r.state.events, tools := r.state.tools)
            && Gathers(r.state.tools, calls)
  {
    hide StepsFrom, CallFrames, NonEmpty, Gathers, UpTo;
    if calls == [] {
      NoFrames(loads, Next(s));
      GathersNone();
    } else {
      var n := |calls| - 1;
      var init, call := calls[..n], calls[n];
      AllCallsRun(loads, s, init);
      var before := StepsFrom(loads, Next(s), AllCallFrames(init)).state;
      StepsConcat(loads, Next(s), AllCallFrames(init), CallFrames(n, call));
      assert call in calls;
      NotYetGathered(before.tools, init);
      CallRuns(loads, before, n, call);
      GathersNext(before.tools, init, call);
      assert init + [call] == calls;
    }
  }

  lemma GathersNone()
    ensures Gathers(NO_TOOLS, [])
  {
  }

  lemma NotYetGathered(tools: ToolTable, calls: seq<CutCall>)
    requires Gathers(tools, calls)
    ensures |calls| !in tools.byIndex
  {
  }

  lemma GathersNext(tools: ToolTable, init: seq<CutCall>, call: CutCall)
    requires Gathers(tools, init)
    ensures Gathers(tools.Put(|init|, Gathered(call)), init + [call])
  {
    assert UpTo(|init|) + [|init|] == UpTo(|init| + 1);
  }

  lemma NoFrames(loads: Loads, from: Stepped<State>)
    requires from.state.tools.Valid()
    ensures StepsFrom(loads, from, []) == from
  {
  }

  // ---- The end of the completion -----------------------------------------------------------------------------

  /** The argument text is absent or a JSON object. */
  predicate WellFormed(loads: Loads, text: string) {
    text == "" || IsObject(loads, text)
  }

  lemma {:induction false} NonEmptyConcat(pieces: seq<string>)
    ensures Concat(NonEmpty(pieces)) == Concat(pieces) && (NonEmpty(pieces) == [] <==> Concat(pieces) == "")
  {
    if pieces != [] {
      var init, p := pieces[..|pieces| - 1], pieces[|pieces| - 1];
      NonEmptyConcat(init);
      NextPart(NonEmpty(init), p);
      if p == "" {
        assert NonEmpty(init) + [] == NonEmpty(init);
        assert Concat(init) + p == Concat(init);
      } else {
        assert |Concat(init) + p| > 0;
      }
    }
  }

  /** The machine parses strictly where the ingestor forgives. */
  lemma StrictOrForgiving(loads: Loads, pieces: seq<string>)
    ensures ParseArguments(loads, NonEmpty(pieces))
         == if WellFormed(loads, Concat(pieces)) then Some(Forgiving(loads, Concat(pieces))) else None
  {
    NonEmptyConcat(pieces);
  }

  function Ended(loads: Loads, call: CutCall): Tool {
    Gathered(call).(arguments := Forgiving(loads, Concat(call.pieces)))
  }

  ghost predicate EndedUntil(loads: Loads, tools: ToolTable, calls: seq<CutCall>, n: nat) {
    forall i :: 0 <= i < |calls| ==>
      i in tools.byIndex && tools.byIndex[i] == if i < n then Ended(loads, calls[i]) else Gathered(calls[i])
  }

  ghost predicate WellFormedUntil(loads: Loads, calls: seq<CutCall>, n: nat) {
    forall i :: 0 <= i < n && i < |calls| ==> WellFormed(loads, Concat(calls[i].pieces))
  }

  lemma {:induction false} EndsRun(loads: Loads, s: State, calls: seq<CutCall>, n: nat)
    requires s.tools.Valid() && Gathers(s.tools, calls) && n <= |calls|
    ensures var r := EndTools(loads, s, n);
            if WellFormedUntil(loads, calls, n) then
              && r.Next? && r.state == s.(events := r.state.events, tools := r.state.tools)
              && r.state.tools.order == s.tools.order && EndedUntil(loads, r.state.tools, calls, n)
            else r.Raised?
  {
    hide NonEmpty, Concat, EndTool;
    if n > 0 {
      EndsRun(loads, s, calls, n - 1);
      assert s.tools.order[n - 1] == n - 1;
      assert WellFormedUntil(loads, calls, n) <==>
             WellFormedUntil(loads, calls, n - 1) && WellFormed(loads, Concat(calls[n - 1].pieces));
      var before := EndTools(loads, s, n - 1);
      if before.Next? { EndOne(loads, before.state, calls, n - 1); }
    }
  }

  lemma EndOne(loads: Loads, s: State, calls: seq<CutCall>, i: nat)
    requires s.tools.Valid() && i < |calls| && EndedUntil(loads, s.tools, calls, i)
    ensures var r := EndTool(loads, s, i);
            if WellFormed(loads, Concat(calls[i].pieces)) then
              && r.Next? && r.state == s.(events := r.state.events, tools := r.state.tools)
              && EndedUntil(loads, r.state.tools, calls, i + 1)
            else r.Raised?
  {
    hide NonEmpty, Concat, ParseArguments, WellFormed, Forgiving;
    StrictOrForgiving(loads, calls[i].pieces);
  }

  function WholeCalls(calls: seq<CutCall>): (r: seq<WholeCall>)
    ensures |r| == |calls| && forall k :: 0 <= k < |r| ==> r[k] == Whole(calls[k])
  {
    seq(|calls|, k requires 0 <= k < |calls| => Whole(calls[k]))
  }

  lemma UsesAreWhole(loads: Loads, tools: ToolTable, calls: seq<CutCall>)
    requires tools.Valid() && tools.order == UpTo(|calls|) && EndedUntil(loads, tools, calls, |calls|)
    requires forall c :: c in calls ==> HasName(c)
    ensures Uses(tools) == WholeUses(loads, WholeCalls(calls))
  {
    AscendingIsSorted(UpTo(|calls|));
    forall k | 0 <= k < |calls| ensures SentId(calls[k].id) == Printed(calls[k].id).text {
      assert calls[k] in calls;
    }
  }

  lemma FinishRuns(loads: Loads, s: State, calls: seq<CutCall>, finish: string)
    requires s.tools.Valid() && Gathers(s.tools, calls) && !s.finishSeen && !s.doneSeen && finish != ""
    requires forall c :: c in calls ==> HasName(c)
    ensures var r := StepsFrom(loads, Next(s), [Chunk(None, finish)] + [DoneSentinel]);
            if WellFormedUntil(loads, calls, |calls|) then
              && r.Next? && r.state.textParts == s.textParts && r.state.stop == StopReason(finish)
              && r.state.finishSeen && r.state.doneSeen
              && Uses(r.state.tools) == WholeUses(loads, WholeCalls(calls))
            else r.Raised?
  {
    hide StepsFrom, EndTools, Uses;
    var frame := Chunk(None, finish);
    StepsConcat(loads, Next(s), [frame], [DoneSentinel]);
    OneStep(loads, s, frame);
    var finished := s.(finishSeen := true, stop := StopReason(finish));
    EndsRun(loads, finished, calls, |calls|);
    var r := Step(loads, s, frame);
    if r.Next? {
      OneStep(loads, r.state, DoneSentinel);
      UsesAreWhole(loads, r.state.tools, calls);
    } else {
      RaisedSticks(loads, r, [DoneSentinel]);
    }
  }

  // ---- Calls without a name ------------------------------------------------------------------------------------

  /** At most the tool at this index changed, and the completion is not finished by it. */
  ghost predicate Touched(s: State, to: State, index: int) {
    && to.tools.Valid() && to.finishSeen == s.finishSeen && to.doneSeen == s.doneSeen
    && (forall i :: i in to.tools.byIndex <==> i in s.tools.byIndex || i == index)
    && (forall i :: i in s.tools.byIndex && i != index ==> to.tools.byIndex[i] == s.tools.byIndex[i])
  }

  lemma StepCallTouches(s: State, call: CallDelta)
    requires s.tools.Valid()
    ensures var r := StepCall(s, call);
            var t := if call.index in s.tools.byIndex then s.tools.byIndex[call.index] else NEW_TOOL;
            && Touched(s, r.state, call.index)
            && (r.Next? ==>
                  var to := r.state.tools.byIndex[call.index];
                  to == Named(t, call).(chunks := to.chunks) && (call.arguments != "" ==> to.begun))
  {
  }

  /** Pieces of arguments never name a tool. */
  lemma {:induction false} PiecesTouch(loads: Loads, s: State, index: int, pieces: seq<string>)
    requires s.tools.Valid() && !s.finishSeen && !s.doneSeen && index in s.tools.byIndex
    requires var t := s.tools.byIndex[index]; t.begun <==> t.id != "" && t.name != ""
    ensures var r := StepsFrom(loads, Next(s), PieceFrames(index, pieces));
            r.Next? ==> Touched(s, r.state, index)
                        && var t, to := s.tools.byIndex[index], r.state.tools.byIndex[index];
                           to.begun == t.begun && to.id == t.id && to.name == t.name
  {
    hide StepsFrom, StepCall, CallFrame;
    if pieces == [] {
      NoFrames(loads, Next(s));
    } else {
      var init, p := pieces[..|pieces| - 1], pieces[|pieces| - 1];
      PiecesTouch(loads, s, index, init);
      var call := CallDelta(index, "", "", p);
      StepsConcat(loads, Next(s), PieceFrames(index, init), [CallFrame(call)]);
      var before := StepsFrom(loads, Next(s), PieceFrames(index, init));
      if before.Raised? {
        RaisedSticks(loads, before, [CallFrame(call)]);
      } else {
        CallFrameRuns(loads, before.state, call);
        StepCallTouches(before.state, call);
      }
    }
  }

  lemma CallTouches(loads: Loads, s: State, index: int, call: CutCall)
    requires s.tools.Valid() && !s.finishSeen && !s.doneSeen && index !in s.tools.byIndex
    ensures var r := StepsFrom(loads, Next(s), CallFrames(index, call));
            r.Next? ==> Touched(s, r.state, index) && r.state.tools.byIndex[index].begun == HasName(call)
  {
    hide StepsFrom, StepCall, CallFrame, PieceFrames;
    var first := CallDelta(index, SentId(call.id), call.name, "");
    StepsConcat(loads, Next(s), [CallFrame(first)], PieceFrames(index, call.pieces));
    CallFrameRuns(loads, s, first);
    StepCallTouches(s, first);
    var begun := StepCall(s, first);
    if begun.Next? {
      PiecesTouch(loads, begun.state, index, call.pieces);
    } else {
      RaisedSticks(loads, begun, PieceFrames(index, call.pieces));
    }
  }

  /** The stream failed, or some tool is without its id or name. */
  ghost predicate Stuck(r: Stepped<State>, n: nat) {
    r.Next? ==>
      && r.state.tools.Valid() && !r.state.finishSeen && !r.state.doneSeen
      && (forall i :: i in r.state.tools.byIndex ==> 0 <= i < n)
      && exists i :: i in r.state.tools.byIndex && !r.state.tools.byIndex[i].begun
  }

  lemma {:induction false} NamelessCallSticks(loads: Loads, s: State, calls: seq<CutCall>)
    requires s.tools == NO_TOOLS && !s.finishSeen && !s.doneSeen
    requires exists c :: c in calls && !HasName(c)
    ensures Stuck(StepsFrom(loads, Next(s), AllCallFrames(calls)), |calls|)
  {
    hide StepsFrom, CallFrames, Gathers, HasName;
    var n := |calls| - 1;
    var init, call := calls[..n], calls[n];
    assert calls == init + [call];
    StepsConcat(loads, Next(s), AllCallFrames(init), CallFrames(n, call));
    var before := StepsFrom(loads, Next(s), AllCallFrames(init));
    if c :| c in init && !HasName(c) {
      NamelessCallSticks(loads, s, init);
    } else {
      AllCallsRun(loads, s, init);
      GatheredIndexes(before.state.tools, init);
    }
    if before.Raised? {
      RaisedSticks(loads, before, CallFrames(n, call));
    } else {
      CallTouches(loads, before.state, n, call);
      StaysStuck(before.state, StepsFrom(loads, before, CallFrames(n, call)), n, call);
    }
  }

  lemma GatheredIndexes(tools: ToolTable, calls: seq<CutCall>)
    requires Gathers(tools, calls)
    ensures forall i :: i in tools.byIndex ==> 0 <= i < |calls|
  {
  }

  lemma StaysStuck(s: State, r: Stepped<State>, n: nat, call: CutCall)
    requires s.tools.Valid() && !s.finishSeen && !s.doneSeen && forall i :: i in s.tools.byIndex ==> 0 <= i < n
    requires r.Next? ==> Touched(s, r.state, n) && r.state.tools.byIndex[n].begun == HasName(call)
    requires !HasName(call) || exists i :: i in s.tools.byIndex && !s.tools.byIndex[i].begun
    ensures Stuck(r, n + 1)
  {
    if r.Next? && HasName(call) {
      var i :| i in s.tools.byIndex && !s.tools.byIndex[i].begun;
      assert r.state.tools.byIndex[i] == s.tools.byIndex[i];
    }
  }

  /** Ending tools names none of them, and fails at one without a name. */
  lemma {:induction false} EndsKeepNames(loads: Loads, s: State, n: nat)
    requires s.tools.Valid() && n <= |s.tools.order|
    ensures var r := EndTools(loads, s, n);
            r.Next? ==>
              && (forall i :: i in s.tools.byIndex <==> i in r.state.tools.byIndex)
              && (forall i :: i in s.tools.byIndex ==> r.state.tools.byIndex[i].begun == s.tools.byIndex[i].begun)
              && forall k :: 0 <= k < n ==> s.tools.byIndex[s.tools.order[k]].begun
  {
    hide ParseArguments;
    if n > 0 { EndsKeepNames(loads, s, n - 1); }
  }

  lemma StuckFails(loads: Loads, r: Stepped<State>, n: nat, finish: string)
    requires r.state.tools.Valid() && Stuck(r, n) && finish != ""
    ensures StepsFrom(loads, r, [Chunk(None, finish)] + [DoneSentinel]).Raised?
  {
    hide StepsFrom, EndTools;
    var frame := Chunk(None, finish);
    StepsConcat(loads, r, [frame], [DoneSentinel]);
    if r.Raised? {
      RaisedSticks(loads, r, [frame]);
      RaisedSticks(loads, r, [DoneSentinel]);
    } else {
      OneStep(loads, r.state, frame);
      var s := r.state.(finishSeen := true, stop := StopReason(finish));
      EndsKeepNames(loads, s, |s.tools.order|);
      var i :| i in s.tools.byIndex && !s.tools.byIndex[i].begun;
      assert i in s.tools.order;
      RaisedSticks(loads, Step(loads, r.state, frame), [DoneSentinel]);
    }
  }

  /** Without a finish reason the stream is never complete. */
  lemma Unfinished(loads: Loads, r: Stepped<State>)
    requires r.state.tools.Valid() && (r.Next? ==> !r.state.finishSeen && !r.state.doneSeen)
    ensures var end := StepsFrom(loads, r, [Chunk(None, "")] + [DoneSentinel]);
            end.Next? ==> !end.state.finishSeen
  {
    hide StepsFrom;
    var frame := Chunk(None, "");
    StepsConcat(loads, r, [frame], [DoneSentinel]);
    if r.Raised? {
      RaisedSticks(loads, r, [frame]);
      RaisedSticks(loads, r, [DoneSentinel]);
    } else {
      OneStep(loads, r.state, frame);
      OneStep(loads, r.state, DoneSentinel);
    }
  }

  /** All frames but the last two: the calls are gathered, or one without a name is stuck. */
  lemma CallsArrive(loads: Loads, texts: seq<string>, calls: seq<CutCall>)
    ensures var r := Steps(loads, TextFrames(texts) + AllCallFrames(calls));
            if forall c :: c in calls ==> HasName(c) then
              && r.Next? && !r.state.finishSeen && !r.state.doneSeen && Concat(r.state.textParts) == Concat(texts)
              && Gathers(r.state.tools, calls)
            else Stuck(r, |calls|)
  {
    hide StepsFrom, TextFrames, AllCallFrames, Gathers, HasName;
    StepsConcat(loads, Next(INITIAL), TextFrames(texts), AllCallFrames(calls));
    TextFramesRun(loads, INITIAL, texts);
    var read := StepsFrom(loads, Next(INITIAL), TextFrames(texts)).state;
    if forall c :: c in calls ==> HasName(c) {
      AllCallsRun(loads, read, calls);
      NoText();
      assert "" + Concat(texts) == Concat(texts);
    } else {
      NamelessCallSticks(loads, read, calls);
    }
  }

  /** How a streamed completion ends, and what its state then is. */
  lemma StreamEnds(loads: Loads, texts: seq<string>, calls: seq<CutCall>, finish: string)
    ensures var r := Steps(loads, Streamed(texts, calls, finish));
            if finish != "" && forall c :: c in calls ==> HasName(c) && WellFormed(loads, Concat(c.pieces)) then
              && r.Next? && r.state.finishSeen && r.state.doneSeen && r.state.stop == StopReason(finish)
              && Concat(r.state.textParts) == Concat(texts)
              && Uses(r.state.tools) == WholeUses(loads, WholeCalls(calls))
            else r.Next? ==> !r.state.finishSeen
  {
    hide StepsFrom, TextFrames, AllCallFrames, Concat, Uses, Gathers, HasName, WellFormed;
    var tail := [Chunk(None, finish)] + [DoneSentinel];
    var arriving := TextFrames(texts) + AllCallFrames(calls);
    assert Streamed(texts, calls, finish) == arriving + tail;
    StepsConcat(loads, Next(INITIAL), arriving, tail);
    CallsArrive(loads, texts, calls);
    AllWellFormed(loads, calls);
    var r := Steps(loads, arriving);
    if finish == "" {
      Unfinished(loads, r);
    } else if forall c :: c in calls ==> HasName(c) {
      FinishRuns(loads, r.state, calls, finish);
    } else {
      StuckFails(loads, r, |calls|, finish);
    }
  }

  /**
    Whatever the cut, the streamed completion succeeds exactly when it has a finish reason and every call has an
    id, a name, and an argument text that is absent or a JSON object; and then the log keeps the same events as
    for the whole completion.
    */
  lemma StreamingMatchesIngestion(loads: Loads, texts: seq<string>, calls: seq<CutCall>, finish: string)
    ensures var (events, ok) := Emission(loads, Streamed(texts, calls, finish), None);
            && (ok <==> finish != ""
                        && forall c :: c in calls ==> HasName(c) && WellFormed(loads, Concat(c.pieces)))
            && (ok ==> Kept(events)
                       == [Message(Concat(texts), StopReason(finish))] + WholeUses(loads, WholeCalls(calls)))
  {
    hide StepsFrom, Streamed, Concat, Uses, Kept, HasName, WellFormed;
    var frames := Streamed(texts, calls, finish);
    StreamEnds(loads, texts, calls, finish);
    StepsUnderway(loads, frames);
    var end := Steps(loads, frames);
    if end.Next? && end.state.finishSeen {
      KeptAfterProgress(end.state.events, end.state.textParts, end.state.stop, Uses(end.state.tools));
    }
  }

  /** An argument text that is no object fails the streamed turn; the whole completion is kept without arguments. */
  lemma BadArgumentsFailTheStream(loads: Loads, id: string, name: string, text: string, finish: string)
    requires text != "" && !IsObject(loads, text)
    ensures var (events, ok) := Emission(loads, Streamed([], [CutCall(TextId(id), name, [text])], finish), None);
            !ok && Kept(events) == []
    ensures WholeUses(loads, [WholeCall(id, name, text)]) == [Use(TextId(id), name, EMPTY_DICT)]
  {
    hide Emission, Streamed, Kept;
    var calls := [CutCall(TextId(id), name, [text])];
    assert calls[0] in calls;
    assert [text][..0] == [] && "" + text == text;
    assert !WellFormed(loads, Concat(calls[0].pieces));
    StreamingMatchesIngestion(loads, [], calls, finish);
    FailureKeepsNothing(loads, Streamed([], calls, finish));
  }

  /** A call without an id or a name: the ingestor keeps it, and the stream fails. */
  lemma NamelessCallFailsTheStream(loads: Loads, call: CutCall, finish: string)
    requires !HasName(call) && call.pieces == []
    ensures var (events, ok) := Emission(loads, Streamed([], [call], finish), None);
            !ok && Kept(events) == []
    ensures WholeUses(loads, WholeCalls([call])) == [Use(Printed(call.id), call.name, EMPTY_DICT)]
  {
    hide Emission, Streamed, Kept;
    assert [call][0] in [call];
    StreamingMatchesIngestion(loads, [], [call], finish);
    FailureKeepsNothing(loads, Streamed([], [call], finish));
  }

  /** A stream that fails leaves nothing in the log. */
  lemma FailureKeepsNothing(loads: Loads, frames: seq<Frame>)
    requires !Emission(loads, frames, None).1
    ensures Kept(Emission(loads, frames, None).0) == []
  {
    hide Emission, Kept;
    var (events, ok) := Emission(loads, frames, None);
    EveryStreamIsWellShaped(loads, frames, None);
    KeptByShape(events, ok);
  }

  lemma AllWellFormed(loads: Loads, calls: seq<CutCall>)
    ensures WellFormedUntil(loads, calls, |calls|) <==> forall c :: c in calls ==> WellFormed(loads, Concat(c.pieces))
  {
    if WellFormedUntil(loads, calls, |calls|) {
      forall c | c in calls ensures WellFormed(loads, Concat(c.pieces)) {
        var i :| 0 <= i < |calls| && calls[i] == c;
      }
    } else {
      var i :| 0 <= i < |calls| && !WellFormed(loads, Concat(calls[i].pieces));
      assert calls[i] in calls;
    }
  }

  lemma NoText()
    ensures Concat([]) == ""
  {
  }
}
