/**
  The scan of a JSON text for `\u` escapes of surrogates, which must come as a high one followed at
  once by a low one (section 7 of RFC 8259).
  */
module SurrogateEscapes {

  datatype Verdict = Accepted | InvalidUnicode | NotHex

  predicate IsHex(c: char) {
    '0' <= c <= '9' || 'a' <= c <= 'f' || 'A' <= c <= 'F'
  }

  function HexValue(c: char): (v: nat)
    requires IsHex(c)
    ensures v < 16
  {
    if c <= '9' then c as int - '0' as int
    else if c <= 'F' then 10 + c as int - 'A' as int
    else 10 + c as int - 'a' as int
  }

  /** Four hexadecimal digits. */
  predicate IsCode(s: string) {
    |s| == 4 && forall i :: 0 <= i < 4 ==> IsHex(s[i])
  }

  function CodeValue(s: string): (v: nat)
    requires IsCode(s)
    ensures v < 0x1_0000
  {
    ((HexValue(s[0]) * 16 + HexValue(s[1])) * 16 + HexValue(s[2])) * 16 + HexValue(s[3])
  }

  predicate IsHigh(s: string)
    requires IsCode(s)
  {
    0xD800 <= CodeValue(s) <= 0xDBFF
  }

  predicate IsLow(s: string)
    requires IsCode(s)
  {
    0xDC00 <= CodeValue(s) <= 0xDFFF
  }

  /** `text[lo:hi]`, which a short text cuts off. */
  function Slice(text: string, lo: nat, hi: nat): string
    requires lo <= hi
  {
    if |text| <= lo then "" else if |text| <= hi then text[lo..] else text[lo..hi]
  }

  /** The verdict on the rest of a text. */
  function Scan(text: string, inString: bool): Verdict
    decreases |text|
  {
    if text == "" then Accepted
    else if !inString then Scan(text[1..], text[0] == '"')
    else if text[0] == '"' then Scan(text[1..], false)
    else if text[0] != '\\' then Scan(text[1..], true)
    else if |text| == 1 then Accepted
    else if text[1] != 'u' then Scan(text[2..], true)
    else
      var code := Slice(text, 2, 6);
      if !IsCode(code) then NotHex
      else if IsHigh(code) then
        if Slice(text, 6, 8) != "\\u" then InvalidUnicode
        else
          var low := Slice(text, 8, 12);
          if !IsCode(low) then NotHex
          else if !IsLow(low) then InvalidUnicode
          else Scan(text[12..], true)
      else if IsLow(code) then InvalidUnicode
      else Scan(text[6..], true)
  }

  lemma SliceOfRest(text: string, at: nat, lo: nat, hi: nat)
    requires at <= |text| && lo <= hi
    ensures Slice(text, at + lo, at + hi) == Slice(text[at..], lo, hi)
  {
  }

  lemma CodeIsWhole(text: string, at: nat)
    ensures IsCode(Slice(text, at, at + 4)) ==> at + 4 <= |text|
  {
  }

  method ValidateSurrogateEscapes(text: string) returns (v: Verdict)
    ensures v == Scan(text, false)
  {
    hide CodeValue, IsHigh, IsLow, IsCode, Slice;
    var inString := false;
    var i := 0;
    while i < |text|
      invariant 0 <= i <= |text|
      invariant Scan(text, false) == Scan(text[i..], inString)
      decreases |text| - i
    {
      var c := text[i];
      ghost var rest, start := text[i..], i;
      assert rest[1..] == text[i + 1..];
      if !inString {
        inString := c == '"';
        i := i + 1;
        continue;
      }
      if c == '"' {
        inString := false;
        i := i + 1;
        continue;
      }
      if c != '\\' {
        i := i + 1;
        continue;
      }
      i := i + 1;
      if i >= |text| { return Accepted; }
      assert rest[1] == text[i] && rest[2..] == text[i + 1..];
      if text[i] != 'u' {
        i := i + 1;
        continue;
      }
      var code := Slice(text, i + 1, i + 5);
      SliceOfRest(text, start, 2, 6);
      if !IsCode(code) { return NotHex; }
      if IsHigh(code) {
        SliceOfRest(text, start, 6, 8);
        if Slice(text, i + 5, i + 7) != "\\u" { return InvalidUnicode; }
        var low := Slice(text, i + 7, i + 11);
        SliceOfRest(text, start, 8, 12);
        CodeIsWhole(rest, 8);
        if !IsCode(low) { return NotHex; }
        if !IsLow(low) { return InvalidUnicode; }
        assert rest[12..] == text[i + 11..];
        i := i + 11;
        continue;
      }
      if IsLow(code) { return InvalidUnicode; }
      CodeIsWhole(rest, 2);
      assert rest[6..] == text[i + 5..];
      i := i + 5;
    }
    return Accepted;
  }

  // ---- The lexical grammar of JSON texts -------------------------------------------------------------

  /** One element of a string literal. */
  datatype Item = Plain(c: char) | Simple(c: char) | Unicode(hex: string)

  /** A JSON text is characters outside strings and string literals. */
  datatype Segment = Outside(c: char) | Literal(items: seq<Item>)

  predicate LegalItem(x: Item) {
    match x
    case Plain(c) => c != '"' && c != '\\'
    case Simple(c) => c in {'"', '\\', '/', 'b', 'f', 'n', 'r', 't'}
    case Unicode(hex) => IsCode(hex)
  }

  predicate LegalItems(items: seq<Item>) {
    forall i :: 0 <= i < |items| ==> LegalItem(items[i])
  }

  predicate Legal(segments: seq<Segment>) {
    forall i :: 0 <= i < |segments| ==>
      match segments[i]
      case Outside(c) => c != '"'
      case Literal(items) => LegalItems(items)
  }

  function ItemText(x: Item): string {
    match x
    case Plain(c) => [c]
    case Simple(c) => ['\\', c]
    case Unicode(hex) => "\\u" + hex
  }

  /** The items and the closing quote, and what follows. */
  function ItemsText(items: seq<Item>, rest: string): string {
    if items == [] then "\"" + rest else ItemText(items[0]) + ItemsText(items[1..], rest)
  }

  function TextOf(segments: seq<Segment>): string {
    if segments == [] then ""
    else
      var rest := TextOf(segments[1..]);
      match segments[0]
      case Outside(c) => [c] + rest
      case Literal(items) => "\"" + ItemsText(items, rest)
  }

  // ---- The scan accepts exactly paired surrogates -----------------------------------------------------

  predicate HighItem(x: Item) {
    x.Unicode? && IsCode(x.hex) && IsHigh(x.hex)
  }

  predicate LowItem(x: Item) {
    x.Unicode? && IsCode(x.hex) && IsLow(x.hex)
  }

  /** Every high escape has a low one right after it, every low escape a high one right before it. */
  predicate Paired(items: seq<Item>) {
    && (forall i :: 0 <= i < |items| && HighItem(items[i]) ==> i + 1 < |items| && LowItem(items[i + 1]))
    && (forall i :: 0 <= i < |items| && LowItem(items[i]) ==> i > 0 && HighItem(items[i - 1]))
  }

  predicate AllPaired(segments: seq<Segment>) {
    forall i :: 0 <= i < |segments| && segments[i].Literal? ==> Paired(segments[i].items)
  }

  lemma PairedAfterOne(items: seq<Item>)
    requires items != [] && !HighItem(items[0]) && !LowItem(items[0])
    ensures Paired(items) <==> Paired(items[1..])
  {
    var rest := items[1..];
    if Paired(rest) {
      forall i | 0 <= i < |items| && HighItem(items[i]) ensures i + 1 < |items| && LowItem(items[i + 1]) {
        assert rest[i - 1] == items[i];
      }
      forall i | 0 <= i < |items| && LowItem(items[i]) ensures i > 0 && HighItem(items[i - 1]) {
        assert rest[i - 1] == items[i];
      }
    }
    if Paired(items) {
      assert forall i :: 0 <= i < |rest| ==> rest[i] == items[i + 1];
    }
  }

  lemma PairedAfterTwo(items: seq<Item>)
    requires |items| >= 2 && HighItem(items[0]) && LowItem(items[1])
    ensures Paired(items) <==> Paired(items[2..])
  {
    var rest := items[2..];
    if Paired(rest) {
      forall i | 0 <= i < |items| && HighItem(items[i]) ensures i + 1 < |items| && LowItem(items[i + 1]) {
        if i >= 2 { assert rest[i - 2] == items[i]; }
      }
      forall i | 0 <= i < |items| && LowItem(items[i]) ensures i > 0 && HighItem(items[i - 1]) {
        if i >= 2 { assert rest[i - 2] == items[i]; }
      }
    }
    if Paired(items) {
      assert forall i :: 0 <= i < |rest| ==> rest[i] == items[i + 2];
    }
  }

  lemma {:induction false} ScanItems(items: seq<Item>, rest: string)
    requires LegalItems(items)
    ensures Scan(ItemsText(items, rest), true) == if Paired(items) then Scan(rest, false) else InvalidUnicode
    decreases |items|
  {
    var text := ItemsText(items, rest);
    if items == [] {
      assert text[1..] == rest;
    } else {
      var x, more := items[0], ItemsText(items[1..], rest);
      assert text == ItemText(x) + more;
      if x.Unicode? {
        ScanUnicode(items, rest);
      } else {
        assert text[|ItemText(x)|..] == more;
        ScanItems(items[1..], rest);
        PairedAfterOne(items);
      }
    }
  }

  lemma CodeInPlace(hex: string, more: string)
    requires IsCode(hex)
    ensures var text := "\\u" + hex + more;
            Slice(text, 2, 6) == hex && text[6..] == more && text[0] == '\\' && text[1] == 'u'
  {
  }

  lemma {:induction false} ScanUnicode(items: seq<Item>, rest: string)
    requires LegalItems(items) && items != [] && items[0].Unicode?
    ensures Scan(ItemsText(items, rest), true) == if Paired(items) then Scan(rest, false) else InvalidUnicode
    decreases |items|, 0
  {
    var hex, more := items[0].hex, ItemsText(items[1..], rest);
    var text := ItemsText(items, rest);
    CodeInPlace(hex, more);
    assert text == "\\u" + hex + more;
    if !IsHigh(hex) && !IsLow(hex) {
      ScanItems(items[1..], rest);
      PairedAfterOne(items);
    } else if IsLow(hex) {
      assert LowItem(items[0]);
    } else {
      assert HighItem(items[0]);
      ScanSecond(items[1..], rest, text);
      if |items| >= 2 && LowItem(items[1]) {
        ScanItems(items[2..], rest);
        PairedAfterTwo(items);
        assert items[1..][1..] == items[2..];
      }
    }
  }

  /** What stands after a high escape: a low escape, another escape, or something that is no escape of a code. */
  lemma ScanSecond(items: seq<Item>, rest: string, text: string)
    requires LegalItems(items)
    requires |text| >= 6 && text[6..] == ItemsText(items, rest)
    ensures Slice(text, 6, 8) == "\\u" <==> items != [] && items[0].Unicode?
    ensures items != [] && items[0].Unicode? ==>
              Slice(text, 8, 12) == items[0].hex && |text| >= 12 && text[12..] == ItemsText(items[1..], rest)
  {
    var after := ItemsText(items, rest);
    assert |text| == |after| + 6 && forall k :: 6 <= k < |text| ==> text[k] == after[k - 6];
    if items == [] {
      assert after[0] == '"';
      assert Slice(text, 6, 8)[0] == '"';
    } else {
      var x, more := items[0], ItemsText(items[1..], rest);
      assert after == ItemText(x) + more;
      match x {
        case Unicode(hex) =>
          CodeInPlace(hex, more);
          assert Slice(text, 6, 8) == "\\u";
        case Simple(c) => assert Slice(text, 6, 8)[1] == c;
        case Plain(c) => assert Slice(text, 6, 8)[0] == c;
      }
    }
  }

  /**
    On every text of the JSON lexical grammar the scan accepts exactly when each string literal has its
    surrogate escapes in pairs, and otherwise reports invalid Unicode.
    */
  lemma {:induction false} ScanAcceptsExactlyPairs(segments: seq<Segment>)
    requires Legal(segments)
    ensures Scan(TextOf(segments), false) == if AllPaired(segments) then Accepted else InvalidUnicode
  {
    if segments != [] {
      var rest := TextOf(segments[1..]);
      ScanAcceptsExactlyPairs(segments[1..]);
      var text := TextOf(segments);
      match segments[0] {
        case Outside(c) => assert text[1..] == rest;
        case Literal(items) =>
          assert text[1..] == ItemsText(items, rest);
          ScanItems(items, rest);
      }
      assert AllPaired(segments) <==> AllPaired(segments[1..]) && (segments[0].Literal? ==> Paired(segments[0].items));
    }
  }

  /** A code is the number its four hexadecimal digits stand for, and the two ranges are those of UTF-16. */
  lemma CodesAre(s: string)
    requires IsCode(s)
    ensures exists a, b, c, d ::
              && 0 <= a < 16 && 0 <= b < 16 && 0 <= c < 16 && 0 <= d < 16
              && (forall p :: p in [(s[0], a), (s[1], b), (s[2], c), (s[3], d)] ==>
                    p.0 == "0123456789abcdef"[p.1] || p.0 == "0123456789ABCDEF"[p.1])
              && CodeValue(s) == a * 0x1000 + b * 0x100 + c * 0x10 + d
    ensures IsHigh(s) <==> 0xD800 <= CodeValue(s) < 0xDC00
    ensures IsLow(s) <==> 0xDC00 <= CodeValue(s) < 0xE000
  {
    var a, b, c, d := HexValue(s[0]), HexValue(s[1]), HexValue(s[2]), HexValue(s[3]);
    HexDigitIs(s[0]);
    HexDigitIs(s[1]);
    HexDigitIs(s[2]);
    HexDigitIs(s[3]);
    assert forall p :: p in [(s[0], a), (s[1], b), (s[2], c), (s[3], d)] ==>
             p.0 == "0123456789abcdef"[p.1] || p.0 == "0123456789ABCDEF"[p.1];
  }

  lemma HexDigitIs(c: char)
    requires IsHex(c)
    ensures c == "0123456789abcdef"[HexValue(c)] || c == "0123456789ABCDEF"[HexValue(c)]
  {
  }

  lemma HexDigitsOnly(c: char)
    ensures IsHex(c) <==> c in "0123456789abcdefABCDEF"
  {
    var digits := "0123456789abcdefABCDEF";
    if '0' <= c <= '9' { assert digits[c as int - 48] == c; }
    else if 'a' <= c <= 'f' { assert digits[c as int - 87] == c; }
    else if 'A' <= c <= 'F' { assert digits[c as int - 49] == c; }
  }
}
