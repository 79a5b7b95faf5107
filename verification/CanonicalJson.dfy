/**
  Canonical JSON after sections 3.2.2.2 and 3.2.3 of RFC 8785: fixed escapes, and dictionary keys in
  the order of their UTF-16 code units.
  */
module CanonicalJson {
  import opened JsonValues
  import Text

  // ---- Strings -------------------------------------------------------------------------------------

  function HexDigit(d: nat): char
    requires d < 16
  {
    if d < 10 then '0' + d as char else 'a' + (d - 10) as char
  }

  function EscapeChar(c: char): (code: string)
    ensures code != ""
  {
    if c == '"' then "\\\""
    else if c == '\\' then "\\\\"
    else if c == '\U{08}' then "\\b"
    else if c == '\t' then "\\t"
    else if c == '\n' then "\\n"
    else if c == '\U{0C}' then "\\f"
    else if c == '\r' then "\\r"
    else if c < ' ' then ['\\', 'u', '0', '0', HexDigit(c as int / 16), HexDigit(c as int % 16)]
    else [c]
  }

  function Escape(s: string): string {
    if s == "" then "" else EscapeChar(s[0]) + Escape(s[1..])
  }

  function StringText(s: string): string {
    "\"" + Escape(s) + "\""
  }

  lemma {:induction false} EscapeAppend(s: string, c: char)
    ensures Escape(s + [c]) == Escape(s) + EscapeChar(c)
  {
    if s == "" {
      assert s + [c] == [c] && [c][1..] == "";
    } else {
      assert (s + [c])[1..] == s[1..] + [c];
      EscapeAppend(s[1..], c);
    }
  }

  method StringLiteral(value: string) returns (text: string)
    ensures text == StringText(value)
  {
    var out := "\"";
    var i := 0;
    while i < |value|
      invariant 0 <= i <= |value| && out == "\"" + Escape(value[..i])
    {
      EscapeAppend(value[..i], value[i]);
      assert value[..i + 1] == value[..i] + [value[i]];
      out := out + EscapeChar(value[i]);
      i := i + 1;
    }
    assert value[..i] == value;
    text := out + "\"";
  }

  // ---- The key order -----------------------------------------------------------------------------

  function Units(c: char): (u: seq<int>)
    ensures |u| == 1 || |u| == 2
  {
    var v := c as int;
    if v < 0x1_0000 then [v] else [0xD800 + (v - 0x1_0000) / 0x400, 0xDC00 + (v - 0x1_0000) % 0x400]
  }

  function Utf16(s: string): seq<int> {
    if s == "" then [] else Units(s[0]) + Utf16(s[1..])
  }

  /** Lexicographic order on code units. */
  predicate Before(a: seq<int>, b: seq<int>) {
    b != [] && (a == [] || a[0] < b[0] || (a[0] == b[0] && Before(a[1..], b[1..])))
  }

  predicate KeyBefore(a: string, b: string) {
    Before(Utf16(a), Utf16(b))
  }

  function InsertEntry(e: Entry, sorted: seq<Entry>): (r: seq<Entry>)
    ensures forall x :: x in r <==> x == e || x in sorted
    ensures |r| == |sorted| + 1
  {
    if sorted == [] || !KeyBefore(sorted[0].key, e.key) then [e] + sorted
    else
      assert sorted == [sorted[0]] + sorted[1..];
      [sorted[0]] + InsertEntry(e, sorted[1..])
  }

  function SortEntries(entries: seq<Entry>): (r: seq<Entry>)
    ensures forall x :: x in r <==> x in entries
    ensures |r| == |entries|
  {
    if entries == [] then []
    else
      assert entries == [entries[0]] + entries[1..];
      InsertEntry(entries[0], SortEntries(entries[1..]))
  }

  // ---- The printer ---------------------------------------------------------------------------------

  function Canonicalize(v: Json): string
    decreases v, 2, 0
  {
    match v
    case Null => "null"
    case Bool(b) => if b then "true" else "false"
    case Int(n) => Text.IntText(n)
    case Str(s) => StringText(s)
    case List(items) => "[" + Text.Join(",", ItemTexts(v, items)) + "]"
    case Dict(entries) => "{" + Text.Join(",", EntryTexts(v, SortEntries(entries))) + "}"
  }

  function ItemTexts(v: Json, items: seq<Json>): (r: seq<string>)
    requires forall i :: 0 <= i < |items| ==> items[i] < v
    ensures |r| == |items|
    decreases v, 1, |items|
  {
    if items == [] then [] else [Canonicalize(items[0])] + ItemTexts(v, items[1..])
  }

  function EntryTexts(v: Json, entries: seq<Entry>): (r: seq<string>)
    requires forall e :: e in entries ==> e.value < v
    ensures |r| == |entries|
    decreases v, 1, |entries|
  {
    if entries == [] then []
    else
      [StringText(entries[0].key) + ":" + Canonicalize(entries[0].value)] + EntryTexts(v, entries[1..])
  }

  // ---- JSON values -----------------------------------------------------------------------------------

  predicate DistinctKeys(entries: seq<Entry>) {
    forall i, j :: 0 <= i < j < |entries| ==> entries[i].key != entries[j].key
  }

  /** A dictionary holds each key once. */
  predicate WellFormed(v: Json) {
    match v
    case List(items) => forall i :: 0 <= i < |items| ==> WellFormed(items[i])
    case Dict(entries) => DistinctKeys(entries) && forall e :: e in entries ==> WellFormed(e.value)
    case _ => true
  }

  function Keys(entries: seq<Entry>): set<string> {
    set e | e in entries :: e.key
  }

  /** Equality of JSON values: dictionaries are equal as maps, whatever their insertion order. */
  ghost predicate SameJson(a: Json, b: Json)
    decreases a
  {
    match (a, b)
    case (List(xs), List(ys)) => |xs| == |ys| && forall i :: 0 <= i < |xs| ==> SameJson(xs[i], ys[i])
    case (Dict(es), Dict(fs)) =>
      && Keys(es) == Keys(fs)
      && forall e, f :: e in es && f in fs && e.key == f.key ==> SameJson(e.value, f.value)
    case (_, _) => a == b
  }
}
