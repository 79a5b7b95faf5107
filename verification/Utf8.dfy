/** UTF-8 as section 3 of RFC 3629 defines it, and the incremental decoder of the streaming reader. */
module Utf8 {
  import opened Wrappers

  type Byte = b: int | 0 <= b < 256

  function EncodeChar(c: char): (bytes: seq<Byte>)
    ensures 1 <= |bytes| <= 4
  {
    var v := c as int;
    if v < 0x80 then [v]
    else if v < 0x800 then [0xC0 + v / 0x40, 0x80 + v % 0x40]
    else if v < 0x10000 then [0xE0 + v / 0x1000, 0x80 + v / 0x40 % 0x40, 0x80 + v % 0x40]
    else [0xF0 + v / 0x40000, 0x80 + v / 0x1000 % 0x40, 0x80 + v / 0x40 % 0x40, 0x80 + v % 0x40]
  }

  function Encode(text: string): seq<Byte> {
    if text == "" then [] else EncodeChar(text[0]) + Encode(text[1..])
  }

  datatype Scan = Char(c: char, size: nat) | Incomplete | Invalid

  predicate Tail(b: Byte) { 0x80 <= b < 0xC0 }

  /** The second byte a lead byte admits: no overlong form, no surrogate, nothing above U+10FFFF. */
  predicate Second(lead: Byte, b: Byte) {
    && (if lead == 0xE0 then 0xA0 else if lead == 0xF0 then 0x90 else 0x80) <= b
    && b < (if lead == 0xED then 0xA0 else if lead == 0xF4 then 0x90 else 0xC0)
  }

  function SizeOf(lead: Byte): nat {
    if lead < 0x80 then 1
    else if lead < 0xC2 then 0
    else if lead < 0xE0 then 2
    else if lead < 0xF0 then 3
    else if lead < 0xF5 then 4
    else 0
  }

  function Join2(a: int, b: int): int { (a - 0xC0) * 0x40 + (b - 0x80) }

  function Join3(a: int, b: int, c: int): int { (a - 0xE0) * 0x1000 + (b - 0x80) * 0x40 + (c - 0x80) }

  function Join4(a: int, b: int, c: int, d: int): int {
    (a - 0xF0) * 0x40000 + (b - 0x80) * 0x1000 + (c - 0x80) * 0x40 + (d - 0x80)
  }

  /** One character from the front of a byte string. */
  function ScanChar(bytes: seq<Byte>): (r: Scan)
    requires bytes != []
    ensures r.Char? ==> 1 <= r.size <= |bytes|
  {
    var b := bytes;
    var size := SizeOf(b[0]);
    if size == 0 then Invalid
    else if size == 1 then Char(b[0] as char, 1)
    else if |b| == 1 then Incomplete
    else if !Second(b[0], b[1]) then Invalid
    else if size == 2 then Char(Join2(b[0], b[1]) as char, 2)
    else if |b| == 2 then Incomplete
    else if !Tail(b[2]) then Invalid
    else if size == 3 then
      Char(Join3(b[0], b[1], b[2]) as char, 3)
    else if |b| == 3 then Incomplete
    else if !Tail(b[3]) then Invalid
    else
      Char(Join4(b[0], b[1], b[2], b[3]) as char, 4)
  }

  /** The incremental decoder: every complete character, and the bytes it keeps for the next call. */
  function Decode(bytes: seq<Byte>): Option<(string, seq<Byte>)>
    decreases |bytes|
  {
    if bytes == [] then Some(("", []))
    else
      match ScanChar(bytes)
      case Invalid => None
      case Incomplete => Some(("", bytes))
      case Char(c, n) =>
        Prepend([c], Decode(bytes[n..]))
  }

  /** Decoding with no byte left over, which the final call of the strict decoder demands. */
  function DecodeWhole(bytes: seq<Byte>): Option<string> {
    match Decode(bytes)
    case None => None
    case Some((text, rest)) => if rest == [] then Some(text) else None
  }

  lemma ScanEncoded(c: char, rest: seq<Byte>)
    ensures ScanChar(EncodeChar(c) + rest) == Char(c, |EncodeChar(c)|)
  {
    var e := EncodeChar(c);
    var bytes := e + rest;
    assert forall i :: 0 <= i < |e| ==> bytes[i] == e[i];
    var v := c as int;
    if 0x80 <= v < 0x800 {
      assert Join2(e[0], e[1]) == v;
    } else if 0x800 <= v < 0x10000 {
      assert v / 0x40 / 0x40 == v / 0x1000;
      assert Join3(e[0], e[1], e[2]) == v;
    } else if 0x10000 <= v {
      assert v / 0x40 / 0x40 == v / 0x1000 && v / 0x1000 / 0x40 == v / 0x40000;
      assert Join4(e[0], e[1], e[2], e[3]) == v;
    }
  }

  lemma ScannedIsEncoded(bytes: seq<Byte>)
    requires bytes != [] && ScanChar(bytes).Char?
    ensures bytes[..ScanChar(bytes).size] == EncodeChar(ScanChar(bytes).c)
  {
    var n := ScanChar(bytes).size;
    var v := ScanChar(bytes).c as int;
    var e := EncodeChar(ScanChar(bytes).c);
    if n == 2 {
      Digits(v / 0x40, bytes[0] - 0xC0, v % 0x40, bytes[1] - 0x80, v);
    } else if n == 3 {
      var b0: int := bytes[0];
      Digits(v / 0x40, (b0 - 0xE0) * 0x40 + (bytes[1] - 0x80), v % 0x40, bytes[2] - 0x80, v);
      assert v / 0x40 / 0x40 == v / 0x1000;
    } else if n == 4 {
      var b0: int := bytes[0];
      var b1: int := bytes[1];
      Digits(v / 0x40, (b0 - 0xF0) * 0x1000 + (b1 - 0x80) * 0x40 + (bytes[2] - 0x80), v % 0x40, bytes[3] - 0x80, v);
      assert v / 0x40 / 0x40 == v / 0x1000 && v / 0x1000 / 0x40 == v / 0x40000;
    }
  }

  lemma Digits(q: int, q': int, r: int, r': int, v: int)
    requires v == q * 0x40 + r == q' * 0x40 + r'
    requires 0 <= r < 0x40 && 0 <= r' < 0x40
    ensures q == q' && r == r'
  {
  }

  /** What a scan has decided, later bytes do not change. */
  lemma ScanStable(a: seq<Byte>, b: seq<Byte>)
    requires a != [] && !ScanChar(a).Incomplete?
    ensures ScanChar(a + b) == ScanChar(a)
  {
  }

  lemma ScanProperPrefix(c: char, k: nat)
    requires 0 < k < |EncodeChar(c)|
    ensures ScanChar(EncodeChar(c)[..k]) == Incomplete
  {
  }

  /** The decoder may be fed in pieces: the kept bytes and the next piece continue where it stood. */
  lemma {:induction false} DecodeConcat(a: seq<Byte>, b: seq<Byte>)
    ensures Decode(a + b) == Resume(Decode(a), b)
    decreases |a|
  {
    if a == [] {
      assert a + b == b;
      ResumeNothing(Decode(b));
    } else if ScanChar(a).Incomplete? {
      ResumeNothing(Decode(a + b));
    } else {
      ScanStable(a, b);
      if ScanChar(a).Char? {
        var n := ScanChar(a).size;
        assert (a + b)[n..] == a[n..] + b;
        DecodeConcat(a[n..], b);
        ResumeAfterChar(ScanChar(a).c, Decode(a[n..]), b);
      }
    }
  }

  /** Going on with the bytes kept by an earlier call and the next piece. */
  function Resume(r: Option<(string, seq<Byte>)>, more: seq<Byte>): Option<(string, seq<Byte>)> {
    match r
    case None => None
    case Some((text, rest)) => Prepend(text, Decode(rest + more))
  }

  function Prepend(text: string, r: Option<(string, seq<Byte>)>): Option<(string, seq<Byte>)> {
    match r
    case None => None
    case Some((more, rest)) => Some((text + more, rest))
  }

  lemma ResumeNothing(r: Option<(string, seq<Byte>)>)
    ensures Prepend("", r) == r
  {
    match r {
      case None =>
      case Some((text, _)) => assert "" + text == text;
    }
  }

  lemma ResumeAfterChar(c: char, r: Option<(string, seq<Byte>)>, more: seq<Byte>)
    ensures Resume(Prepend([c], r), more) == Prepend([c], Resume(r, more))
  {
    match r {
      case None =>
      case Some((text, rest)) =>
        match Decode(rest + more) {
          case None =>
          case Some((next, _)) => assert [c] + (text + next) == [c] + text + next;
        }
    }
  }

  lemma {:induction false} DecodeEncoded(text: string)
    ensures Decode(Encode(text)) == Some((text, []))
  {
    if text != "" {
      var head := EncodeChar(text[0]);
      ScanEncoded(text[0], Encode(text[1..]));
      assert (head + Encode(text[1..]))[|head|..] == Encode(text[1..]);
      DecodeEncoded(text[1..]);
      assert [text[0]] + text[1..] == text;
    }
  }

  lemma {:induction false} DecodedIsEncoded(bytes: seq<Byte>)
    requires Decode(bytes).Some?
    ensures bytes == Encode(Decode(bytes).value.0) + Decode(bytes).value.1
    decreases |bytes|
  {
    if bytes != [] && ScanChar(bytes).Char? {
      var n, c := ScanChar(bytes).size, ScanChar(bytes).c;
      var (text, rest) := Decode(bytes[n..]).value;
      calc {
        bytes;
        bytes[..n] + bytes[n..];
        { ScannedIsEncoded(bytes); DecodedIsEncoded(bytes[n..]); }
        EncodeChar(c) + (Encode(text) + rest);
        EncodeChar(c) + Encode(text) + rest;
        { assert ([c] + text)[0] == c && ([c] + text)[1..] == text; }
        Encode([c] + text) + rest;
      }
    }
  }

  /** The strict decoder accepts exactly the encodings, and inverts them. */
  lemma WholeIffEncoding(bytes: seq<Byte>, text: string)
    ensures DecodeWhole(bytes) == Some(text) <==> bytes == Encode(text)
  {
    DecodeEncoded(text);
    if DecodeWhole(bytes) == Some(text) { DecodedIsEncoded(bytes); }
  }

  /** Cutting an encoding at `k` bytes and dropping the broken character keeps the longest prefix that fits. */
  lemma {:induction false} CutKeepsLongestPrefix(text: string, k: nat) returns (n: nat)
    requires k <= |Encode(text)|
    ensures n <= |text| && |Encode(text[..n])| <= k
    ensures n < |text| ==> |Encode(text[..n + 1])| > k
    ensures Decode(Encode(text)[..k]).Some? && Decode(Encode(text)[..k]).value.0 == text[..n]
  {
    hide EncodeChar, ScanChar;
    n := 0;
    if text != "" {
      var head, tail := EncodeChar(text[0]), Encode(text[1..]);
      if k < |head| {
        EncodeFirst(text, 1);
        assert Encode(text)[..k] == head[..k];
        if k > 0 { ScanProperPrefix(text[0], k); }
      } else {
        var m := CutKeepsLongestPrefix(text[1..], k - |head|);
        n := m + 1;
        EncodeFirst(text, n);
        if n < |text| { EncodeFirst(text, n + 1); }
        var cut := tail[..k - |head|];
        assert Encode(text)[..k] == head + cut;
        ScanEncoded(text[0], cut);
        assert (head + cut)[|head|..] == cut;
        assert text[..n] == [text[0]] + text[1..][..m];
      }
    }
  }

  lemma EncodeFirst(text: string, n: nat)
    requires 1 <= n <= |text|
    ensures Encode(text[..n]) == EncodeChar(text[0]) + Encode(text[1..][..n - 1])
  {
    assert text[..n][1..] == text[1..][..n - 1];
  }
}
