/**
  A streamed response from its bytes to the log: the chunks are framed, each payload is parsed into a frame, and
  the frames drive a protocol machine. How a payload is parsed is left open.
  */
module StreamedBytes {
  import opened Wrappers
  import opened StreamEvents
  import opened Utf8
  import opened SseFraming
  import opened SseRoundTrip
  import opened Text
  import AnthropicStreams
  import AnthropicLaws
  import AnthropicIngestion
  import OpenAIStreams
  import OpenAILaws
  import OpenAIIngestion
  import GeminiStreams
  import GeminiLaws

  function Parsed<F>(parse: string -> F, payloads: seq<string>): (r: seq<F>)
    ensures |r| == |payloads| && forall k :: 0 <= k < |r| ==> r[k] == parse(payloads[k])
  {
    seq(|payloads|, k requires 0 <= k < |payloads| => parse(payloads[k]))
  }

  const DECODE_ERROR: Option<string> := Some("invalid UTF-8 provider stream")

  // ---- Anthropic ---------------------------------------------------------------------------------------------

  /** However the bytes are cut, the emission is that of the frames of their text; bytes that are no text fail. */
  method RunAnthropic(
    stream: AnthropicStreams.AnthropicStream, parse: string -> AnthropicStreams.Frame, chunks: seq<seq<Byte>>)
    returns (ok: bool)
    requires stream.Now() == AnthropicStreams.INITIAL.(events := []) && NoneEmpty(chunks)
    modifies stream, stream.out
    ensures match DecodeWhole(Flatten(chunks))
            case None => !ok && Kept(stream.out.events) == []
            case Some(text) =>
              (stream.out.events, ok) == AnthropicStreams.Emission(stream.loads, Parsed(parse, Frames(text)), None)
  {
    hide Kept, AnthropicStreams.Emission, Frames, DecodeWhole;
    FramingIgnoresChunks(chunks);
    var payloads, decoded := ReadSseLines(chunks);
    var frames := Parsed(parse, payloads);
    ok := stream.RunStream(frames, if decoded then None else DECODE_ERROR);
    if !decoded {
      AnthropicLaws.EveryStreamIsWellShaped(stream.loads, frames, DECODE_ERROR);
      AnthropicBroken(stream.loads, frames);
      KeptByShape(stream.out.events, ok);
    }
  }

  lemma AnthropicBroken(loads: Loads, frames: seq<AnthropicStreams.Frame>)
    ensures !AnthropicStreams.Emission(loads, frames, DECODE_ERROR).1
  {
  }

  /** The bytes of a cut response, themselves cut into any chunks, leave in the log what the ingestor does. */
  lemma AnthropicBytesMatchIngestion(
    loads: Loads, parse: string -> AnthropicStreams.Frame, text: string, chunks: seq<seq<Byte>>,
    blocks: seq<AnthropicIngestion.CutBlock>, stopReason: string)
    requires NoneEmpty(chunks) && Flatten(chunks) == Encode(text)
    requires Parsed(parse, Frames(text)) == AnthropicIngestion.Streamed(blocks, stopReason)
    ensures ReadSse(chunks).Some?
    ensures var (events, ok) := AnthropicStreams.Emission(loads, Parsed(parse, ReadSse(chunks).value), None);
            && (ok <==> stopReason != "" && forall b :: b in blocks ==> AnthropicIngestion.WellFormed(loads, b))
            && (ok ==> (Kept(events) == AnthropicIngestion.Ingested(loads, blocks, stopReason)
                        <==> AnthropicIngestion.TextIds(blocks)))
  {
    hide AnthropicStreams.Emission, Kept, Frames;
    EveryChunkingGivesTheFrames(text, chunks);
    AnthropicIngestion.StreamingMatchesIngestion(loads, blocks, stopReason);
  }

  // ---- OpenAI ------------------------------------------------------------------------------------------------

  method RunOpenAI(
    stream: OpenAIStreams.OpenAIStream, parse: string -> OpenAIStreams.Frame, chunks: seq<seq<Byte>>)
    returns (ok: bool)
    requires stream.Now() == OpenAIStreams.INITIAL.(events := []) && NoneEmpty(chunks)
    modifies stream, stream.out
    ensures match DecodeWhole(Flatten(chunks))
            case None => !ok && Kept(stream.out.events) == []
            case Some(text) =>
              (stream.out.events, ok) == OpenAIStreams.Emission(stream.loads, Parsed(parse, Frames(text)), None)
  {
    hide Kept, OpenAIStreams.Emission, Frames, DecodeWhole;
    FramingIgnoresChunks(chunks);
    var payloads, decoded := ReadSseLines(chunks);
    var frames := Parsed(parse, payloads);
    ok := stream.RunStream(frames, if decoded then None else DECODE_ERROR);
    if !decoded {
      OpenAILaws.EveryStreamIsWellShaped(stream.loads, frames, DECODE_ERROR);
      OpenAIBroken(stream.loads, frames);
      KeptByShape(stream.out.events, ok);
    }
  }

  lemma OpenAIBroken(loads: Loads, frames: seq<OpenAIStreams.Frame>)
    ensures !OpenAIStreams.Emission(loads, frames, DECODE_ERROR).1
  {
  }

  lemma OpenAIBytesMatchIngestion(
    loads: Loads, parse: string -> OpenAIStreams.Frame, text: string, chunks: seq<seq<Byte>>,
    texts: seq<string>, calls: seq<OpenAIIngestion.CutCall>, finish: string)
    requires NoneEmpty(chunks) && Flatten(chunks) == Encode(text)
    requires Parsed(parse, Frames(text)) == OpenAIIngestion.Streamed(texts, calls, finish)
    ensures ReadSse(chunks).Some?
    ensures var (events, ok) := OpenAIStreams.Emission(loads, Parsed(parse, ReadSse(chunks).value), None);
            && (ok <==> finish != "" && forall c :: c in calls ==>
                          OpenAIIngestion.HasName(c) && OpenAIIngestion.WellFormed(loads, Concat(c.pieces)))
            && (ok ==> Kept(events)
                       == [Message(Concat(texts), OpenAIStreams.StopReason(finish))]
                          + OpenAIIngestion.WholeUses(loads, OpenAIIngestion.WholeCalls(calls)))
  {
    hide OpenAIStreams.Emission, Kept, Frames;
    EveryChunkingGivesTheFrames(text, chunks);
    OpenAIIngestion.StreamingMatchesIngestion(loads, texts, calls, finish);
  }

  // ---- Gemini ------------------------------------------------------------------------------------------------

  method RunGemini(stream: GeminiStreams.GeminiStream, parse: string -> GeminiStreams.Frame, chunks: seq<seq<Byte>>)
    returns (ok: bool)
    requires stream.Now() == GeminiStreams.INITIAL.(events := []) && NoneEmpty(chunks)
    modifies stream, stream.out
    ensures match DecodeWhole(Flatten(chunks))
            case None => !ok && Kept(stream.out.events) == []
            case Some(text) =>
              (stream.out.events, ok) == GeminiStreams.Emission(Parsed(parse, Frames(text)), None)
  {
    hide Kept, GeminiStreams.Emission, Frames, DecodeWhole;
    FramingIgnoresChunks(chunks);
    var payloads, decoded := ReadSseLines(chunks);
    var frames := Parsed(parse, payloads);
    ok := stream.RunStream(frames, if decoded then None else DECODE_ERROR);
    if !decoded {
      GeminiLaws.EveryStreamIsWellShaped(frames, DECODE_ERROR);
      GeminiBroken(frames);
      KeptByShape(stream.out.events, ok);
    }
  }

  lemma GeminiBroken(frames: seq<GeminiStreams.Frame>)
    ensures !GeminiStreams.Emission(frames, DECODE_ERROR).1
  {
  }

  // ---- Printed payloads --------------------------------------------------------------------------------------

  /** A server that prints each payload as one event sends a text whose frames are the payloads. */
  lemma PrintedText<F>(parse: string -> F, payloads: seq<string>)
    requires forall p :: p in payloads ==> p != "" && Unbroken(p)
    ensures Parsed(parse, Frames(PrintAll(payloads))) == Parsed(parse, payloads)
  {
    PrintedPayloadsComeBack(payloads);
  }
}
