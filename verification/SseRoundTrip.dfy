/** Which payloads survive printing as an event and framing again. */
module SseRoundTrip {
  import opened Wrappers
  import opened Utf8
  import opened SseFraming
  import Text

  predicate Unbroken(s: string) {
    forall i :: 0 <= i < |s| ==> !Breaks(s[i])
  }

  /** One payload as a server sends it. */
  function Print(payload: string): string {
    "data: " + payload + "\n\n"
  }

  function PrintAll(payloads: seq<string>): string {
    if payloads == [] then "" else Print(payloads[0]) + PrintAll(payloads[1..])
  }

  lemma {:induction false} SplitUnbroken(line: string)
    requires Unbroken(line) && line != ""
    ensures SplitLines(line) == [line]
  {
    assert LineEnd(line) == |line|;
  }

  lemma DataLinesOne(line: string)
    ensures DataLines([line]) == if "data:" <= line then [DataOf(line)] else []
  {
    var init: seq<string> := [line][..0];
    assert init == [];
  }

  lemma DispatchLine(line: string)
    requires Unbroken(line) && "data:" <= line
    ensures Dispatch(SplitLines(line)) == if DataOf(line) == "" then [] else [DataOf(line)]
  {
    SplitUnbroken(line);
    DataLinesOne(line);
  }

  lemma PrintedLine(payload: string)
    requires Unbroken(payload)
    ensures var line := "data: " + payload;
            "data:" <= line && DataOf(line) == payload && Unbroken(line)
  {
    var line := "data: " + payload;
    assert line[..5] == "data:" && line[5] == ' ' && line[6..] == payload;
    assert line[5..][0] == ' ';
  }

  lemma DispatchOne(payload: string)
    requires Unbroken(payload)
    ensures Dispatch(SplitLines("data: " + payload)) == if payload == "" then [] else [payload]
  {
    PrintedLine(payload);
    DispatchLine("data: " + payload);
  }

  lemma {:induction false} FindSkips(text: string, i: nat, s: nat)
    requires i <= s < |text| && SepLen(text, s) > 0
    requires forall k: nat :: i <= k < s ==> SepLen(text, k) == 0
    ensures FindFrom(text, i) == Some(Cut(s, s + SepLen(text, s)))
    decreases s - i
  {
    if i < s { FindSkips(text, i + 1, s); }
  }

  lemma FindEndOfPrinted(payload: string, rest: string)
    requires Unbroken(payload)
    ensures FindFrom(Print(payload) + rest, 0) == Some(Cut(|payload| + 6, |payload| + 8))
  {
    var text := Print(payload) + rest;
    var s := |payload| + 6;
    assert text[s] == '\n' && text[s + 1] == '\n';
    forall k: nat | k < s ensures SepLen(text, k) == 0 {
      assert !Breaks(text[k]) by {
        if k >= 6 { assert text[k] == payload[k - 6]; }
      }
    }
    assert SepLen(text, s) == 2;
    FindSkips(text, 0, s);
  }

  lemma FramesAfterOne(payload: string, rest: string)
    requires payload != "" && Unbroken(payload)
    ensures Frames(Print(payload) + rest) == [payload] + Frames(rest)
  {
    var text := Print(payload) + rest;
    FindEndOfPrinted(payload, rest);
    assert text[|payload| + 8..] == rest;
    assert text[..|payload| + 6] == "data: " + payload;
    DispatchOne(payload);
    var tail := Dispatch(SplitLines(Drain(rest).1));
    assert [payload] + (Drain(rest).0 + tail) == [payload] + Drain(rest).0 + tail;
  }

  /** Payloads without line boundaries, printed one event each, come back in order. */
  lemma {:induction false} PrintedPayloadsComeBack(payloads: seq<string>)
    requires forall p :: p in payloads ==> p != "" && Unbroken(p)
    ensures Frames(PrintAll(payloads)) == payloads
  {
    if payloads == [] {
      assert Drain("") == ([], "");
    } else {
      assert payloads[0] in payloads && forall q :: q in payloads[1..] ==> q in payloads;
      FramesAfterOne(payloads[0], PrintAll(payloads[1..]));
      PrintedPayloadsComeBack(payloads[1..]);
    }
  }

  /** However the bytes of printed events are cut into chunks, the payloads come back in order. */
  lemma PrintedEventsSurviveChunking(payloads: seq<string>, chunks: seq<seq<Byte>>)
    requires forall p :: p in payloads ==> p != "" && Unbroken(p)
    requires NoneEmpty(chunks) && Flatten(chunks) == Encode(PrintAll(payloads))
    ensures ReadSse(chunks) == Some(payloads)
  {
    EveryChunkingGivesTheFrames(PrintAll(payloads), chunks);
    PrintedPayloadsComeBack(payloads);
  }

  // ---- The bound that shows every other payload is lost ---------------------------------------------

  /** Total length of lines, each with its line end. */
  function Span(lines: seq<string>): nat {
    if lines == [] then 0 else |lines[0]| + 1 + Span(lines[1..])
  }

  lemma {:induction false} SpanOfSplit(text: string)
    ensures Span(SplitLines(text)) <= |text| + 1
    ensures text != "" ==> SplitLines(text) != []
    decreases |text|
  {
    hide LineEnd, Breaks;
    if text != "" {
      var i := LineEnd(text);
      if i < |text| {
        var rest := text[i + BreakLen(text, i)..];
        SpanOfSplit(rest);
        var lines := SplitLines(rest);
        assert ([text[..i]] + lines)[1..] == lines;
        assert rest == "" ==> lines == [];
      }
    }
  }

  lemma {:induction false} DataLinesFromFront(lines: seq<string>)
    requires lines != []
    ensures DataLines(lines) == (if "data:" <= lines[0] then [DataOf(lines[0])] else []) + DataLines(lines[1..])
  {
    if |lines| > 1 {
      var init := lines[..|lines| - 1];
      DataLinesFromFront(init);
      assert init[1..] == lines[1..][..|lines| - 2];
    }
  }

  lemma {:induction false} JoinLength(parts: seq<string>)
    ensures parts != [] ==> |Text.Join("\n", parts)| + 1 == Span(parts)
  {
    if |parts| > 1 { JoinLength(parts[1..]); }
  }

  /** The data of a list of lines is at least five characters a data line shorter than the lines. */
  lemma {:induction false} DataSpan(lines: seq<string>)
    ensures Span(DataLines(lines)) + 5 * |DataLines(lines)| <= Span(lines)
  {
    if lines != [] {
      DataLinesFromFront(lines);
      DataSpan(lines[1..]);
      if "data:" <= lines[0] {
        var d := [DataOf(lines[0])];
        assert (d + DataLines(lines[1..]))[1..] == DataLines(lines[1..]);
      } else {
        assert [] + DataLines(lines[1..]) == DataLines(lines[1..]);
      }
    }
  }

  lemma DispatchShort(block: string)
    ensures forall d :: d in Dispatch(SplitLines(block)) ==> |d| + 5 <= |block|
  {
    var lines := SplitLines(block);
    SpanOfSplit(block);
    DataSpan(lines);
    JoinLength(DataLines(lines));
  }

  lemma {:induction false} DrainShort(text: string)
    ensures forall d :: d in Drain(text).0 ==> |d| + 5 <= |text|
    ensures |Drain(text).1| <= |text|
    decreases |text|
  {
    match FindFrom(text, 0) {
      case None =>
      case Some(cut) =>
        DispatchShort(text[..cut.start]);
        DrainShort(text[cut.end..]);
    }
  }

  lemma FramesShort(text: string)
    ensures forall d :: d in Frames(text) ==> |d| + 5 <= |text|
  {
    DrainShort(text);
    DispatchShort(Drain(text).1);
  }

  /** A block that starts with a data line and contains a line boundary gives strictly less than it holds. */
  lemma BrokenBlockShort(block: string)
    requires "data: " <= block && LineEnd(block) < |block|
    ensures forall d :: d in Dispatch(SplitLines(block)) ==> |d| + 6 < |block|
  {
    FieldIsUnbroken(block, LineEnd(block));
    SplitAtFirstBreak(block);
  }

  lemma SplitAtFirstBreak(block: string)
    requires LineEnd(block) < |block|
    requires var line := block[..LineEnd(block)]; |line| >= 6 && "data:" <= line && line[5] == ' '
    ensures forall d :: d in Dispatch(SplitLines(block)) ==> |d| + 6 < |block|
  {
    hide LineEnd, Breaks, Dispatch;
    var i := LineEnd(block);
    FirstLineBound(block[..i], block[i + BreakLen(block, i)..]);
  }

  lemma FieldIsUnbroken(block: string, i: nat)
    requires "data: " <= block && i < |block| && Breaks(block[i])
    ensures i >= 6 && "data:" <= block[..i] && block[..i][5] == ' '
  {
    assert forall k :: 0 <= k < 6 ==> block[k] == "data: "[k] && !Breaks(block[k]);
    assert block[..i][..5] == block[..5] == "data:";
  }

  lemma FirstLineBound(line: string, rest: string)
    requires "data:" <= line && |line| >= 6 && line[5] == ' '
    ensures forall d :: d in Dispatch([line] + SplitLines(rest)) ==> |d| + 6 < |line| + 1 + |rest|
  {
    var lines := SplitLines(rest);
    var data, more := DataOf(line), DataLines(lines);
    assert |data| == |line| - 6;
    assert ([line] + lines)[1..] == lines;
    DataLinesFromFront([line] + lines);
    SpanOfSplit(rest);
    DataSpan(lines);
    JoinLength([data] + more);
    assert ([data] + more)[1..] == more;
    if more == [] {
      assert Span([data] + more) == |data| + 1;
    } else {
      assert |more| >= 1;
    }
  }

  lemma {:induction false} FirstCutIsABreak(text: string, i: nat)
    requires FindFrom(text, i).Some?
    ensures Breaks(text[FindFrom(text, i).value.start])
    decreases |text| - i
  {
    if SepLen(text, i) == 0 { FirstCutIsABreak(text, i + 1); }
  }

  /** A lone payload comes back exactly when it is not empty and holds no line boundary of `splitlines`. */
  lemma LonePayloadComesBack(payload: string)
    ensures Frames(Print(payload)) == [payload] <==> payload != "" && Unbroken(payload)
  {
    var text := Print(payload);
    if payload != "" && Unbroken(payload) {
      PrintedPayloadsComeBack([payload]);
      assert PrintAll([payload]) == text + "" == text;
    } else {
      LostPayload(payload);
    }
  }

  lemma EventHasACut(payload: string)
    ensures FindFrom(Print(payload), 0).Some?
    ensures FindFrom(Print(payload), 0).value.start <= |payload| + 6
  {
    var text, s := Print(payload), |payload| + 6;
    assert text[s] == '\n' && text[s + 1] == '\n';
    assert SepLen(text, s) > 0;
    FoundBy(text, 0, s);
  }

  lemma {:induction false} FoundBy(text: string, i: nat, s: nat)
    requires i <= s < |text| && SepLen(text, s) > 0
    ensures FindFrom(text, i).Some? && FindFrom(text, i).value.start <= s
    decreases s - i
  {
    if SepLen(text, i) == 0 { FoundBy(text, i + 1, s); }
  }

  lemma LostPayload(payload: string)
    requires payload == "" || !Unbroken(payload)
    ensures Frames(Print(payload)) != [payload]
  {
    var text := Print(payload);
    EventHasACut(payload);
    var cut := FindFrom(text, 0).value;
    var block, rest := text[..cut.start], text[cut.end..];
    FirstCutIsABreak(text, 0);
    FieldIsUnbroken(text, cut.start);
    assert "data: " <= block;
    assert Frames(text) == Dispatch(SplitLines(block)) + Frames(rest);
    FramesShort(rest);
    assert forall d :: d in Frames(rest) ==> |d| < |payload|;
    if payload != "" {
      FirstBlockShort(payload, cut.start);
    } else {
      DispatchShort(block);
    }
    forall d | d in Frames(text) ensures d != payload {
      assert d in Dispatch(SplitLines(block)) || d in Frames(rest);
    }
    assert payload !in Frames(text) && payload in [payload];
  }

  lemma FirstBlockShort(payload: string, start: nat)
    requires payload != "" && !Unbroken(payload) && 6 <= start <= |payload| + 6
    requires Breaks(Print(payload)[start])
    ensures forall d :: d in Dispatch(SplitLines(Print(payload)[..start])) ==> |d| < |payload|
  {
    var block := Print(payload)[..start];
    if LineEnd(block) < |block| {
      BrokenBlockShort(block);
    } else {
      var line := payload[..start - 6];
      assert block == "data: " + line;
      forall k | 0 <= k < |line| ensures !Breaks(line[k]) { assert block[k + 6] == line[k]; }
      DispatchOne(line);
    }
  }

  /** U+2028 is legal inside a JSON string and is no line end of an event stream, yet it loses the payload. */
  lemma SeparatorInPayloadIsLost()
    ensures var payload := "a\U{2028}b";
            Frames(Print(payload)) != [payload] && '\n' !in payload && '\r' !in payload
  {
    var payload := "a\U{2028}b";
    assert Breaks(payload[1]);
    LostPayload(payload);
    assert forall c :: c in payload ==> c == 'a' || c == '\U{2028}' || c == 'b';
  }

  // ---- Lines and blocks in characters -------------------------------------------------------------------------

  /** The ten characters that end a line. */
  lemma BreaksAre(c: char)
    ensures Breaks(c)
       <==> c as int in {0x0A, 0x0B, 0x0C, 0x0D, 0x1C, 0x1D, 0x1E, 0x85, 0x2028, 0x2029}
  {
  }

  /** A block ends at an empty line, each of its two line feeds with or without a carriage return. */
  lemma SeparatorsAre(text: string, i: nat)
    requires i <= |text|
    ensures SepLen(text, i)
         == if "\n\n" <= text[i..] then 2
            else if "\n\r\n" <= text[i..] || "\r\n\n" <= text[i..] then 3
            else if "\r\n\r\n" <= text[i..] then 4
            else 0
  {
    var rest := text[i..];
    assert forall k :: 0 <= k < |rest| ==> rest[k] == text[i + k];
    assert SepLen(text, i) == SepLen(rest, 0);
  }

  lemma {:induction false} SplitAtBreak(line: string, rest: string)
    requires Unbroken(line)
    ensures SplitLines(line + "\n" + rest) == [line] + SplitLines(rest)
  {
    var text := line + "\n" + rest;
    LineEndAt(line, '\n', rest);
    assert text[..|line|] == line && text[|line| + 1..] == rest;
  }

  /** A carriage return and a line feed end one line. */
  lemma SplitAtCrLf(line: string, rest: string)
    requires Unbroken(line)
    ensures SplitLines(line + "\r\n" + rest) == [line] + SplitLines(rest)
  {
    var text := line + "\r\n" + rest;
    assert text == line + "\r" + ("\n" + rest);
    LineEndAt(line, '\r', "\n" + rest);
    assert text[..|line|] == line && text[|line| + 2..] == rest;
  }

  lemma {:induction false} LineEndAt(line: string, end: char, rest: string)
    requires Unbroken(line) && Breaks(end)
    ensures LineEnd(line + [end] + rest) == |line|
  {
    var text := line + [end] + rest;
    if line != "" {
      assert text[0] == line[0] && text[1..] == line[1..] + [end] + rest;
      LineEndAt(line[1..], end, rest);
    } else {
      assert text[0] == end;
    }
  }

  /** An event of two data lines dispatches them joined by a line feed; lines of other fields are passed over. */
  lemma DataLinesAreJoined(event: string, a: string, b: string)
    requires Unbroken(event) && Unbroken(a) && Unbroken(b) && !("data:" <= event)
    ensures Dispatch(SplitLines(event + "\n" + ("data: " + a + "\n" + ("data: " + b)))) == [a + "\n" + b]
    ensures Dispatch(SplitLines("data:" + ("x" + a))) == ["x" + a]
  {
    hide SplitLines, DataLines, DataOf;
    PrintedLine(a);
    PrintedLine(b);
    SplitAtBreak(event, "data: " + a + "\n" + ("data: " + b));
    SplitAtBreak("data: " + a, "data: " + b);
    SplitUnbroken("data: " + b);
    var lines := [event, "data: " + a, "data: " + b];
    assert SplitLines(event + "\n" + ("data: " + a + "\n" + ("data: " + b))) == lines;
    ThreeLines(event, "data: " + a, "data: " + b);
    assert [a, b][1..] == [b] && Text.Join("\n", [a, b]) == a + "\n" + Text.Join("\n", [b]);
    assert |a + "\n" + b| > 0;
    BareLine(a);
  }

  /** Without a space after the colon nothing is dropped. */
  lemma BareLine(a: string)
    requires Unbroken(a)
    ensures Dispatch(SplitLines("data:" + ("x" + a))) == ["x" + a]
  {
    var bare := "data:" + ("x" + a);
    assert DataOf(bare) == "x" + a && "data:" <= bare by {
      assert bare[..5] == "data:" && bare[5..] == "x" + a && bare[5] == 'x';
    }
    forall k | 0 <= k < |bare| ensures !Breaks(bare[k]) {
      if k >= 6 { assert bare[k] == a[k - 6]; }
    }
    hide *;
    DispatchLine(bare);
  }

  lemma ThreeLines(event: string, a: string, b: string)
    requires !("data:" <= event) && "data:" <= a && "data:" <= b
    ensures DataLines([event, a, b]) == [DataOf(a), DataOf(b)]
  {
    hide DataOf;
    assert [event, a, b][..2] == [event, a] && [event, a][..1] == [event] && [event][..0] == [];
    assert DataLines([event]) == [] && DataLines([event, a]) == [DataOf(a)];
  }
}
