/**
  Server-sent-event framing: byte chunks are decoded incrementally, the text buffer is cut at every
  blank line, and the `data:` lines of each block are dispatched.
  */
module SseFraming {
  import opened Wrappers
  import opened Utf8
  import Text

  // ---- Blocks ------------------------------------------------------------------------------------

  /** Length of a match of `\r?\n\r?\n` starting at `i`, or 0. */
  function SepLen(text: string, i: nat): (n: nat)
    ensures i + n <= |text| || n == 0
    ensures n == 0 || 2 <= n <= 4
  {
    var a := if i < |text| && text[i] == '\r' then i + 1 else i;
    var b := if a + 1 < |text| && text[a + 1] == '\r' then a + 2 else a + 1;
    if b < |text| && text[a] == '\n' && text[b] == '\n' then b + 1 - i else 0
  }

  datatype Cut = Cut(start: nat, end: nat)

  /** Leftmost match at or after `i`. */
  function FindFrom(text: string, i: nat): (r: Option<Cut>)
    ensures r.Some? ==> i <= r.value.start < r.value.end <= |text|
    ensures r.Some? ==> r.value.end == r.value.start + SepLen(text, r.value.start)
    ensures r.Some? ==> forall k: nat :: i <= k < r.value.start ==> SepLen(text, k) == 0
    decreases |text| - i
  {
    if i >= |text| then None
    else if SepLen(text, i) > 0 then Some(Cut(i, i + SepLen(text, i)))
    else FindFrom(text, i + 1)
  }

  /** The characters at which `str.splitlines` ends a line. */
  predicate Breaks(c: char) {
    c in {'\n', '\r', '\U{0B}', '\U{0C}', '\U{1C}', '\U{1D}', '\U{1E}', '\U{85}', '\U{2028}', '\U{2029}'}
  }

  function LineEnd(text: string): (i: nat)
    ensures i <= |text|
    ensures i < |text| ==> Breaks(text[i])
    ensures forall k :: 0 <= k < i ==> !Breaks(text[k])
  {
    if text == "" || Breaks(text[0]) then 0 else 1 + LineEnd(text[1..])
  }

  function BreakLen(text: string, i: nat): (n: nat)
    requires i < |text|
    ensures 1 <= n && i + n <= |text|
  {
    if text[i] == '\r' && i + 1 < |text| && text[i + 1] == '\n' then 2 else 1
  }

  function SplitLines(text: string): seq<string>
    decreases |text|
  {
    if text == "" then []
    else
      var i := LineEnd(text);
      if i == |text| then [text] else [text[..i]] + SplitLines(text[i + BreakLen(text, i)..])
  }

  function DataLines(lines: seq<string>): seq<string> {
    if lines == [] then []
    else
      var last := lines[|lines| - 1];
      DataLines(lines[..|lines| - 1]) + (if "data:" <= last then [DataOf(last)] else [])
  }

  /** A data line without its field name and one leading space. */
  function DataOf(line: string): string
    requires "data:" <= line
  {
    if " " <= line[5..] then line[6..] else line[5..]
  }

  /** What a block hands to the callback: nothing when it has no data or only empty data. */
  function Dispatch(lines: seq<string>): seq<string> {
    var data := Text.Join("\n", DataLines(lines));
    if data == "" then [] else [data]
  }

  /** Every complete block of a buffer, and what stays in the buffer. */
  function Drain(buffer: string): (seq<string>, string)
    decreases |buffer|
  {
    match FindFrom(buffer, 0)
    case None => ([], buffer)
    case Some(cut) =>
      Ahead(Dispatch(SplitLines(buffer[..cut.start])), Drain(buffer[cut.end..]))
  }

  /** The framing of a whole text: cut at each leftmost blank line, then the unterminated block. */
  function Frames(text: string): seq<string> {
    var (data, rest) := Drain(text);
    data + Dispatch(SplitLines(rest))
  }

  method DispatchBlock(lines: seq<string>) returns (data: seq<string>)
    ensures data == Dispatch(lines)
  {
    var dataLines: seq<string> := [];
    var i := 0;
    while i < |lines|
      invariant 0 <= i <= |lines| && dataLines == DataLines(lines[..i])
    {
      assert lines[..i + 1][..i] == lines[..i];
      if "data:" <= lines[i] {
        var field := lines[i][5..];
        if " " <= field { field := field[1..]; }
        dataLines := dataLines + [field];
      }
      i := i + 1;
    }
    assert lines[..i] == lines;
    data := [];
    if dataLines != [] {
      var joined := Text.Join("\n", dataLines);
      if joined != "" { data := [joined]; }
    }
  }

  // ---- The reader --------------------------------------------------------------------------------

  /** The bytes the decoder keeps, the text not yet cut, and the data dispatched so far. */
  datatype Reader = Reader(pending: seq<Byte>, buffer: string, data: seq<string>)

  const START := Reader([], "", [])

  /** Newly decoded text joins the buffer, and every complete block leaves it. */
  function Take(buffer: string, data: seq<string>, text: string, pending: seq<Byte>): Reader {
    var (all, rest) := Ahead(data, Drain(buffer + text));
    Reader(pending, rest, all)
  }

  /** One chunk. `None` is the decoder's error. */
  function Feed(r: Reader, raw: seq<Byte>): Option<Reader> {
    match Decode(r.pending + raw)
    case None => None
    case Some((text, rest)) => Some(Take(r.buffer, r.data, text, rest))
  }

  /** The chunks from `i` up to the first empty one, which is the end of the response. */
  function FeedFrom(r: Reader, chunks: seq<seq<Byte>>, i: nat): Option<Reader>
    requires i <= |chunks|
    decreases |chunks| - i
  {
    if i == |chunks| || chunks[i] == [] then Some(r)
    else
      match Feed(r, chunks[i])
      case None => None
      case Some(next) => FeedFrom(next, chunks, i + 1)
  }

  /** Everything dispatched by a response read in these chunks; `None` when it is not UTF-8. */
  function ReadSse(chunks: seq<seq<Byte>>): Option<seq<string>> {
    match FeedFrom(START, chunks, 0)
    case None => None
    case Some(r) =>
      if r.pending != [] then None else Some(r.data + Dispatch(SplitLines(r.buffer)))
  }

  /** The inner loop: cut and dispatch while the buffer holds a blank line. */
  method DispatchComplete(filled: string) returns (data: seq<string>, buffer: string)
    ensures (data, buffer) == Drain(filled)
  {
    buffer := filled;
    data := [];
    var cut := FindFrom(buffer, 0);
    AheadTwice([], [], Drain(filled));
    while cut.Some?
      invariant cut == FindFrom(buffer, 0)
      invariant Ahead(data, Drain(buffer)) == Drain(filled)
      decreases |buffer|
    {
      var block := DispatchBlock(SplitLines(buffer[..cut.value.start]));
      AheadTwice(data, block, Drain(buffer[cut.value.end..]));
      data := data + block;
      buffer := buffer[cut.value.end..];
      cut := FindFrom(buffer, 0);
    }
    assert data + [] == data;
  }

  method ReadChunk(r: Reader, raw: seq<Byte>) returns (next: Option<Reader>)
    ensures next == Feed(r, raw)
  {
    var decoded := Decode(r.pending + raw);
    if decoded.None? { return None; }
    var blocks, buffer := DispatchComplete(r.buffer + decoded.value.0);
    return Some(Reader(decoded.value.1, buffer, r.data + blocks));
  }

  lemma NothingLeft()
    ensures Dispatch(SplitLines("")) == []
  {
  }

  method ReadSseLines(chunks: seq<seq<Byte>>) returns (data: seq<string>, ok: bool)
    ensures ok <==> ReadSse(chunks).Some?
    ensures ok ==> data == ReadSse(chunks).value
  {
    hide Feed, Drain, Dispatch;
    NothingLeft();
    var r := START;
    var i := 0;
    while i < |chunks| && chunks[i] != []
      invariant 0 <= i <= |chunks|
      invariant FeedFrom(START, chunks, 0) == FeedFrom(r, chunks, i)
    {
      var next := ReadChunk(r, chunks[i]);
      if next.None? { return r.data, false; }
      r := next.value;
      i := i + 1;
    }
    if r.pending != [] { return r.data, false; }
    var last: seq<string> := [];
    if r.buffer != "" { last := DispatchBlock(SplitLines(r.buffer)); }
    return r.data + last, true;
  }

  // ---- Chunk boundaries do not matter --------------------------------------------------------------

  lemma SepLenStable(a: string, b: string, i: nat)
    requires i < |a|
    ensures SepLen(a, i) > 0 ==> SepLen(a + b, i) == SepLen(a, i)
    ensures SepLen(a, i) == 0 && SepLen(a + b, i) > 0 ==> i + SepLen(a + b, i) > |a|
  {
    var t := a + b;
    assert forall k :: 0 <= k < |a| ==> t[k] == a[k];
  }

  /** A separator found in a buffer is the one found in any longer buffer. */
  lemma {:induction false} FindStable(a: string, b: string, i: nat)
    requires FindFrom(a, i).Some?
    ensures FindFrom(a + b, i) == FindFrom(a, i)
    decreases |a| - i
  {
    SepLenStable(a, b, i);
    if SepLen(a, i) == 0 {
      var cut := FindFrom(a, i).value;
      NoLateStart(a, b, i, cut.start);
      FindStable(a, b, i + 1);
    }
  }

  /** A match cannot end beyond a later complete match: each match has exactly two line feeds. */
  lemma NoLateStart(a: string, b: string, i: nat, s: nat)
    requires i < s < |a| && SepLen(a, i) == 0 && SepLen(a, s) > 0
    ensures SepLen(a + b, i) == 0
  {
    var t := a + b;
    assert forall k :: 0 <= k < |a| ==> t[k] == a[k];
  }

  function Ahead(data: seq<string>, r: (seq<string>, string)): (seq<string>, string) {
    (data + r.0, r.1)
  }

  /** Going on with the text an earlier drain left in the buffer, and more. */
  function Continue(r: (seq<string>, string), more: string): (seq<string>, string) {
    Ahead(r.0, Drain(r.1 + more))
  }

  lemma AheadTwice(a: seq<string>, b: seq<string>, r: (seq<string>, string))
    ensures Ahead(a, Ahead(b, r)) == Ahead(a + b, r)
    ensures Ahead([], r) == r
  {
    assert a + (b + r.0) == a + b + r.0;
    assert [] + r.0 == r.0;
  }

  lemma {:induction false} DrainConcat(a: string, b: string)
    ensures Drain(a + b) == Continue(Drain(a), b)
    decreases |a|
  {
    match FindFrom(a, 0) {
      case None =>
        AheadTwice([], [], Drain(a + b));
      case Some(cut) =>
        FindStable(a, b, 0);
        assert (a + b)[cut.end..] == a[cut.end..] + b;
        assert (a + b)[..cut.start] == a[..cut.start];
        DrainConcat(a[cut.end..], b);
        var block := Dispatch(SplitLines(a[..cut.start]));
        var (first, rest) := Drain(a[cut.end..]);
        AheadTwice(block, first, Drain(rest + b));
    }
  }

  function Flatten(chunks: seq<seq<Byte>>): seq<Byte> {
    if chunks == [] then [] else chunks[0] + Flatten(chunks[1..])
  }

  lemma TakeTwice(buffer: string, data: seq<string>, text: string, more: string, kept: seq<Byte>, left: seq<Byte>)
    ensures var next := Take(buffer, data, text, kept);
            Take(next.buffer, next.data, more, left) == Take(buffer, data, text + more, left)
  {
    assert buffer + (text + more) == (buffer + text) + more;
    DrainConcat(buffer + text, more);
    var (first, rest) := Drain(buffer + text);
    AheadTwice(data, first, Drain(rest + more));
  }

  /** Two chunks fed one after the other act as their concatenation. */
  lemma FeedConcat(r: Reader, a: seq<Byte>, b: seq<Byte>)
    ensures Feed(r, a + b) == match Feed(r, a) case None => None case Some(next) => Feed(next, b)
  {
    assert r.pending + (a + b) == (r.pending + a) + b;
    DecodeConcat(r.pending + a, b);
    match Decode(r.pending + a) {
      case None =>
      case Some((text, kept)) =>
        match Decode(kept + b) {
          case None =>
          case Some((more, left)) => TakeTwice(r.buffer, r.data, text, more, kept, left);
        }
    }
  }

  predicate NoneEmpty(chunks: seq<seq<Byte>>) {
    forall i :: 0 <= i < |chunks| ==> chunks[i] != []
  }

  /** A reader between chunks: nothing in it is still to be decoded or cut. */
  predicate Settled(r: Reader) {
    Feed(r, []) == Some(r)
  }

  lemma FeedSettles(r: Reader, raw: seq<Byte>)
    requires Feed(r, raw).Some?
    ensures Settled(Feed(r, raw).value)
  {
    FeedConcat(r, raw, []);
    assert raw + [] == raw;
  }

  lemma {:induction false} FeedFromIsFeedOnce(r: Reader, chunks: seq<seq<Byte>>, i: nat)
    requires i <= |chunks| && NoneEmpty(chunks) && Settled(r)
    ensures FeedFrom(r, chunks, i) == Feed(r, Flatten(chunks[i..]))
    decreases |chunks| - i
  {
    if i < |chunks| {
      assert chunks[i..][1..] == chunks[i + 1..];
      FeedConcat(r, chunks[i], Flatten(chunks[i + 1..]));
      if Feed(r, chunks[i]).Some? {
        FeedSettles(r, chunks[i]);
        FeedFromIsFeedOnce(Feed(r, chunks[i]).value, chunks, i + 1);
      }
    }
  }

  /**
    The response is accepted exactly when its bytes are UTF-8, and then it dispatches the framing of
    the whole decoded text, however the bytes were cut into chunks.
    */
  lemma FramingIgnoresChunks(chunks: seq<seq<Byte>>)
    requires NoneEmpty(chunks)
    ensures ReadSse(chunks)
         == match DecodeWhole(Flatten(chunks)) case None => None case Some(text) => Some(Frames(text))
  {
    FeedFromIsFeedOnce(START, chunks, 0);
    assert chunks[0..] == chunks;
    FeedWhole(Flatten(chunks));
  }

  lemma FeedWhole(bytes: seq<Byte>)
    ensures Feed(START, bytes) == match Decode(bytes)
                                  case None => None
                                  case Some((text, rest)) => Some(Reader(rest, Drain(text).1, Drain(text).0))
  {
    assert [] + bytes == bytes;
    match Decode(bytes) {
      case None =>
      case Some((text, rest)) =>
        assert "" + text == text;
        AheadTwice([], [], Drain(text));
    }
  }

  /** In terms of texts: every chunking of an encoded text gives its frames. */
  lemma EveryChunkingGivesTheFrames(text: string, chunks: seq<seq<Byte>>)
    requires NoneEmpty(chunks) && Flatten(chunks) == Encode(text)
    ensures ReadSse(chunks) == Some(Frames(text))
  {
    FramingIgnoresChunks(chunks);
    WholeIffEncoding(Flatten(chunks), text);
  }
}
