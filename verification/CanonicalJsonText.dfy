/** The canonical text in terms of characters, code units and digits alone. */
module CanonicalJsonText {
  import opened JsonValues
  import opened CanonicalJson
  import opened CanonicalJsonLaws
  import Text

  // ---- The key order ---------------------------------------------------------------------------------

  /** UTF-16: a character of the first plane is its own code unit, any other a high and a low surrogate. */
  lemma Utf16OfChar(c: char)
    ensures c as int < 0x1_0000 ==> Utf16([c]) == [c as int]
    ensures c as int >= 0x1_0000 ==>
              exists high, low ::
                && Utf16([c]) == [high, low] && 0xD800 <= high <= 0xDBFF && 0xDC00 <= low <= 0xDFFF
                && c as int == 0x1_0000 + (high - 0xD800) * 0x400 + (low - 0xDC00)
  {
    assert [c][1..] == "" && Units(c) + [] == Units(c);
    if c as int >= 0x1_0000 {
      var v := c as int - 0x1_0000;
      var high, low := 0xD800 + v / 0x400, 0xDC00 + v % 0x400;
      assert Units(c) == [high, low] == Utf16([c]);
      assert 0xD800 <= high <= 0xDBFF && c as int == 0x1_0000 + (high - 0xD800) * 0x400 + (low - 0xDC00);
    }
  }

  lemma {:induction false} Utf16Concat(s: string, t: string)
    ensures Utf16(s + t) == Utf16(s) + Utf16(t)
  {
    if s == "" {
      assert s + t == t;
    } else {
      assert (s + t)[1..] == s[1..] + t;
      Utf16Concat(s[1..], t);
    }
  }

  /** The same up to `p`, where the first ends or has the smaller element. */
  predicate AscendsAt(a: seq<int>, b: seq<int>, p: int) {
    0 <= p <= |a| && p < |b| && a[..p] == b[..p] && (p == |a| || a[p] < b[p])
  }

  /** Where the first is before the second, they agree up to a place at which it ends, or has the smaller unit. */
  lemma {:induction false} BeforeAt(a: seq<int>, b: seq<int>) returns (p: nat)
    requires Before(a, b)
    ensures AscendsAt(a, b, p)
  {
    if a == [] || a[0] < b[0] {
      p := 0;
    } else {
      var q := BeforeAt(a[1..], b[1..]);
      p := q + 1;
      assert a[..p] == [a[0]] + a[1..][..q] && b[..p] == [b[0]] + b[1..][..q];
    }
  }

  /** The code units of the first key come before those of the second. */
  ghost predicate KeyAscends(a: string, b: string) {
    exists p :: AscendsAt(Utf16(a), Utf16(b), p)
  }

  ghost predicate KeysAscend(es: seq<Entry>) {
    forall i, j :: 0 <= i < j < |es| ==> KeyAscends(es[i].key, es[j].key)
  }

  lemma SortedAscends(es: seq<Entry>)
    requires Sorted(es)
    ensures KeysAscend(es)
  {
    forall i, j | 0 <= i < j < |es| ensures KeyAscends(es[i].key, es[j].key) {
      BeforeAscends(es[i].key, es[j].key);
    }
  }

  lemma BeforeAscends(a: string, b: string)
    requires KeyBefore(a, b)
    ensures KeyAscends(a, b)
  {
    var p := BeforeAt(Utf16(a), Utf16(b));
  }

  lemma {:induction false} InsertKeepsAll(e: Entry, sorted: seq<Entry>)
    ensures multiset(InsertEntry(e, sorted)) == multiset(sorted) + multiset{e}
  {
    if sorted != [] {
      assert sorted == [sorted[0]] + sorted[1..];
      InsertKeepsAll(e, sorted[1..]);
    }
  }

  lemma {:induction false} SortKeepsAll(entries: seq<Entry>)
    ensures multiset(SortEntries(entries)) == multiset(entries)
  {
    if entries != [] {
      assert entries == [entries[0]] + entries[1..];
      SortKeepsAll(entries[1..]);
      InsertKeepsAll(entries[0], SortEntries(entries[1..]));
    }
  }

  lemma {:induction false} EntryTextsAt(v: Json, es: seq<Entry>)
    requires forall e :: e in es ==> e.value < v
    ensures forall i :: 0 <= i < |es| ==>
              EntryTexts(v, es)[i] == StringText(es[i].key) + ":" + Canonicalize(es[i].value)
  {
    hide StringText, Canonicalize;
    if es != [] {
      assert forall e :: e in es[1..] ==> e in es;
      EntryTextsAt(v, es[1..]);
      forall i | 1 <= i < |es| ensures EntryTexts(v, es)[i] == EntryTexts(v, es[1..])[i - 1] {
      }
    }
  }

  /** A dictionary is printed entry by entry, its keys in ascending order of their UTF-16 code units. */
  lemma KeysPrintedInOrder(entries: seq<Entry>) returns (es: seq<Entry>, texts: seq<string>)
    requires DistinctKeys(entries)
    ensures multiset(es) == multiset(entries) && |texts| == |es|
    ensures Canonicalize(Dict(entries)) == "{" + Text.Join(",", texts) + "}"
    ensures forall i :: 0 <= i < |es| ==> texts[i] == StringText(es[i].key) + ":" + Canonicalize(es[i].value)
    ensures KeysAscend(es)
  {
    hide StringText, Utf16, Before;
    var v := Dict(entries);
    es := SortEntries(entries);
    SortSorts(entries);
    SortKeepsAll(entries);
    texts := EntryTexts(v, es);
    EntryTextsAt(v, es);
    SortedAscends(es);
  }

  // ---- Strings -----------------------------------------------------------------------------------------

  /** One character in quotes: seven short escapes, four hexadecimal digits for other controls, else itself. */
  lemma LiteralOfChar(c: char)
    ensures c == '"' ==> StringText([c]) == "\"\\\"\""
    ensures c == '\\' ==> StringText([c]) == "\"\\\\\""
    ensures c == '\U{08}' ==> StringText([c]) == "\"\\b\""
    ensures c == '\U{09}' ==> StringText([c]) == "\"\\t\""
    ensures c == '\U{0A}' ==> StringText([c]) == "\"\\n\""
    ensures c == '\U{0C}' ==> StringText([c]) == "\"\\f\""
    ensures c == '\U{0D}' ==> StringText([c]) == "\"\\r\""
    ensures c < '\U{20}' && c !in {'\U{08}', '\U{09}', '\U{0A}', '\U{0C}', '\U{0D}'} ==>
              StringText([c]) == "\"\\u00" + ["01"[c as int / 16], "0123456789abcdef"[c as int % 16]] + "\""
    ensures c >= '\U{20}' && c != '"' && c != '\\' ==> StringText([c]) == ['"', c, '"']
  {
    OneCharText(c);
    var code := EscapeChar(c);
    if c == '"' { assert code == "\\\""; }
    else if c == '\\' { assert code == "\\\\"; }
    else if c == '\U{08}' { assert code == "\\b"; }
    else if c == '\U{09}' { assert code == "\\t"; }
    else if c == '\U{0A}' { assert code == "\\n"; }
    else if c == '\U{0C}' { assert code == "\\f"; }
    else if c == '\U{0D}' { assert code == "\\r"; }
    else if c < '\U{20}' {
      LowerHex(c as int / 16);
      LowerHex(c as int % 16);
      assert code == "\\u00" + ["01"[c as int / 16], "0123456789abcdef"[c as int % 16]];
    }
  }

  lemma OneCharText(c: char)
    ensures StringText([c]) == "\"" + EscapeChar(c) + "\""
  {
    hide EscapeChar;
    assert [c][1..] == "" && Escape([c][1..]) == "";
    assert EscapeChar(c) + "" == EscapeChar(c);
  }

  lemma LowerHex(d: nat)
    requires d < 16
    ensures HexDigit(d) == "0123456789abcdef"[d]
    ensures d < 2 ==> HexDigit(d) == "01"[d]
  {
  }

  lemma {:induction false} EscapeConcat(s: string, t: string)
    ensures Escape(s + t) == Escape(s) + Escape(t)
  {
    if s == "" {
      assert s + t == t;
    } else {
      assert (s + t)[1..] == s[1..] + t;
      EscapeConcat(s[1..], t);
    }
  }

  lemma QuotedBody(s: string)
    ensures var a := StringText(s);
            |a| >= 2 && a[..|a| - 1] == "\"" + Escape(s) && a[1..] == Escape(s) + "\""
  {
    hide Escape;
    InQuotes(Escape(s));
  }

  /** A literal is the literals of its parts, one after the other. */
  lemma LiteralOfConcat(s: string, t: string)
    ensures StringText("") == "\"\""
    ensures var a, b := StringText(s), StringText(t);
            |a| >= 2 && |b| >= 2 && StringText(s + t) == a[..|a| - 1] + b[1..]
  {
    EscapeConcat(s, t);
    hide StringText, Escape;
    QuotedBody(s);
    QuotedBody(t);
    QuotedParts(s, t);
    NothingQuoted();
  }

  lemma NothingQuoted()
    ensures StringText("") == "\"\""
  {
  }

  lemma QuotedParts(s: string, t: string)
    requires Escape(s + t) == Escape(s) + Escape(t)
    ensures StringText(s + t) == "\"" + Escape(s) + (Escape(t) + "\"")
  {
    hide Escape;
  }

  lemma InQuotes(x: string)
    ensures ("\"" + x + "\"")[..|x| + 1] == "\"" + x && ("\"" + x + "\"")[1..] == x + "\""
  {
  }

  // ---- Numbers and the other values ----------------------------------------------------------------------

  /** What decimal digits stand for. */
  function DecimalValue(digits: string): int {
    if digits == "" then 0
    else DecimalValue(digits[..|digits| - 1]) * 10 + (digits[|digits| - 1] as int - 48)
  }

  /** A number is printed in decimal digits that stand for it, with no leading zero. */
  lemma {:induction false} DigitsOfNat(n: nat)
    ensures var text := Text.NatText(n);
            && text != "" && (forall i :: 0 <= i < |text| ==> 48 <= text[i] as int <= 57)
            && DecimalValue(text) == n && (text[0] == '0' ==> n == 0)
  {
    if n >= 10 {
      DigitsOfNat(n / 10);
      var init := Text.NatText(n / 10);
      assert (init + [Text.DigitChar(n % 10)])[..|init|] == init;
    } else {
      assert [Text.DigitChar(n)][..0] == "";
    }
  }

  lemma PlainValues(n: int, items: seq<Json>) returns (texts: seq<string>)
    ensures Canonicalize(Null) == "null" && Canonicalize(Bool(true)) == "true" && Canonicalize(Bool(false)) == "false"
    ensures n >= 0 ==> Canonicalize(Int(n)) == Text.NatText(n)
    ensures n < 0 ==> Canonicalize(Int(n)) == "-" + Text.NatText(-n)
    ensures |texts| == |items| && (forall i :: 0 <= i < |items| ==> texts[i] == Canonicalize(items[i]))
    ensures Canonicalize(List(items)) == "[" + Text.Join(",", texts) + "]"
  {
    texts := ItemTexts(List(items), items);
    ItemTextsAt(List(items), items);
  }

  lemma {:induction false} ItemTextsAt(v: Json, items: seq<Json>)
    requires forall i :: 0 <= i < |items| ==> items[i] < v
    ensures forall i :: 0 <= i < |items| ==> ItemTexts(v, items)[i] == Canonicalize(items[i])
  {
    hide Canonicalize;
    if items != [] {
      ItemTextsAt(v, items[1..]);
      forall i | 1 <= i < |items| ensures ItemTexts(v, items)[i] == ItemTexts(v, items[1..])[i - 1] {
      }
    }
  }
}
