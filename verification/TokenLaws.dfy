/** What the token estimate counts, when TokenMarkerTail acts on it, and how the tail strategies word their
    summaries. */
module TokenLaws {
  import opened Events
  import opened Compaction
  import opened Strategies
  import CapLaws
  import Text

  /** The characters of a payload are those of its texts; other values count nothing. */
  lemma CharsAdd(events: seq<Event>, e: Event)
    ensures var added := CharsOf(events + [e]) - CharsOf(events);
            match e.payload
            case UserMessage(Str(text)) => added == |text|
            case AssistantMessage(text, stop, _) => added == |text| + |stop|
            case ToolUse(TextId(id), name, _) => added == |id| + |name|
            case ToolUse(NumberId(_), name, _) => added == |name|
            case ToolResult(TextId(id), Some(Str(output)), None) => added == |id| + |output|
            case ToolResult(TextId(id), Some(Str(output)), Some(error)) => added == |id| + |output| + |error|
            case ToolResult(TextId(id), Some(Null), Some(error)) => added == |id| + |error|
            case ToolResult(NumberId(_), None, Some(error)) => added == |error|
            case _ => true
    ensures CharsOf([]) == 0
  {
    assert (events + [e])[..|events|] == events;
  }

  /** Messages are user and assistant messages, calls and results. */
  lemma {:induction false} MessagesAre(stream: seq<Event>)
    ensures forall e :: e in Messages(stream) <==>
              && e in stream
              && (e.payload.UserMessage? || e.payload.AssistantMessage? || e.payload.ToolUse? || e.payload.ToolResult?)
  {
    if stream != [] {
      var init, e := stream[..|stream| - 1], stream[|stream| - 1];
      assert stream == init + [e];
      MessagesAre(init);
    }
  }

  /** The strategy acts exactly when the estimate is above the product, whose fraction is cut off. */
  lemma TriggeredAbove(s: TokenMarkerTail, messages: seq<Event>)
    ensures s.Triggered(messages) <==> Tokens(messages) as real > s.maxTokens as real * s.threshold
  {
    var product := s.maxTokens as real * s.threshold;
    var tokens := Tokens(messages);
    assert product.Floor as real <= product < product.Floor as real + 1.0;
    if tokens > product.Floor { assert tokens as real >= product.Floor as real + 1.0; }
  }

  lemma Substituted(mark: string, value: string)
    requires mark != ""
    ensures Text.ReplaceAll(mark, mark, value) == value
  {
    assert mark[0..0 + |mark|] == mark;
    CapLaws.FirstReplaced(mark, mark, value, 0);
    assert mark[0 + |mark|..] == "" && mark[..0] == "";
  }

  predicate NoMark(text: string) {
    forall i :: 0 <= i < |text| ==> text[i] != '$'
  }

  lemma MarkAbsent(text: string, mark: string, value: string)
    requires mark != "" && (NoMark(text) || (|text| == |mark| && text != mark)) && mark[0] == '$'
    ensures Text.ReplaceAll(text, mark, value) == text
  {
    forall i ensures !CapLaws.OccursAt(text, mark, i) {
      if 0 <= i <= |text| - |mark| {
        assert text[i..i + |mark|][0] == text[i];
        if |text| == |mark| { assert text[0..|text|] == text; }
      }
    }
    CapLaws.NothingToReplace(text, mark, value);
  }

  lemma DigitsUnmarked(n: nat)
    ensures NoMark(Text.IntText(n))
  {
    NatUnmarked(n);
  }

  lemma {:induction false} NatUnmarked(n: nat)
    ensures NoMark(Text.NatText(n))
  {
    if n >= 10 { NatUnmarked(n / 10); }
  }

  /** The three marks replaced, in a format that is one of them or has none. */
  lemma MarksReplaced(format: string, n: string, e: string, t: string)
    requires NoMark(n) && NoMark(e) && NoMark(t)
    ensures var r := Text.ReplaceAll(Text.ReplaceAll(Text.ReplaceAll(format, "$N", n), "$E", e), "$T", t);
            && (format == "$N" ==> r == n) && (format == "$E" ==> r == e) && (format == "$T" ==> r == t)
            && (NoMark(format) ==> r == format)
  {
    hide Text.ReplaceAll, NoMark;
    if format == "$N" {
      Substituted("$N", n);
      MarkAbsent(n, "$E", e);
      MarkAbsent(n, "$T", t);
    } else if format == "$E" {
      MarkAbsent("$E", "$N", n);
      Substituted("$E", e);
      MarkAbsent(e, "$T", t);
    } else if format == "$T" {
      MarkAbsent("$T", "$N", n);
      MarkAbsent("$T", "$E", e);
      Substituted("$T", t);
    }
    if NoMark(format) {
      MarkAbsent(format, "$N", n);
      MarkAbsent(format, "$E", e);
      MarkAbsent(format, "$T", t);
    }
  }

  /** The marks stand for the number of hidden events, the estimate, and the token threshold. */
  lemma SummaryMarks(s: TokenMarkerTail, hidden: nat, estimated: nat)
    requires s.Valid()
    ensures s.format == "$N" ==> s.Summary(hidden, estimated) == Text.IntText(hidden)
    ensures s.format == "$E" ==> s.Summary(hidden, estimated) == Text.IntText(estimated)
    ensures s.format == "$T" ==> s.Summary(hidden, estimated) == Text.IntText((s.maxTokens as real * s.threshold).Floor)
    ensures NoMark(s.format) ==> s.Summary(hidden, estimated) == s.format
  {
    hide Text.ReplaceAll, Text.IntText, NoMark;
    assert s.maxTokens as real * s.threshold >= 0.0;
    assert s.TriggerTokens() == (s.maxTokens as real * s.threshold).Floor >= 0;
    DigitsUnmarked(hidden);
    DigitsUnmarked(estimated);
    DigitsUnmarked(s.TriggerTokens());
    MarksReplaced(s.format, Text.IntText(hidden), Text.IntText(estimated), Text.IntText(s.TriggerTokens()));
  }
}
