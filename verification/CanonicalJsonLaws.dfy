/** The canonical text is an unambiguous normal form: equal texts are equal values, and conversely. */
module CanonicalJsonLaws {
  import opened JsonValues
  import opened CanonicalJson
  import Text

  // ---- Escaped text can be read back in one way ------------------------------------------------------

  /** The escape code is prefix-free. */
  lemma EscapeCodeIsPrefixFree(c: char, d: char, u: string, v: string)
    requires EscapeChar(c) + u == EscapeChar(d) + v
    ensures c == d && u == v
  {
    var e, f := EscapeChar(c), EscapeChar(d);
    assert (e + u)[0] == e[0] && (f + v)[0] == f[0];
    if e[0] == '\\' {
      assert (e + u)[1] == e[1] && (f + v)[1] == f[1];
      if e[1] == 'u' {
        assert (e + u)[4] == e[4] && (f + v)[4] == f[4];
        assert (e + u)[5] == e[5] && (f + v)[5] == f[5];
        HexDigitsDiffer(c as int / 16, d as int / 16);
        HexDigitsDiffer(c as int % 16, d as int % 16);
      }
    }
    assert |e| == |f|;
    assert (e + u)[|e|..] == u && (f + v)[|f|..] == v;
  }

  lemma HexDigitsDiffer(a: nat, b: nat)
    requires a < 16 && b < 16
    ensures HexDigit(a) == HexDigit(b) ==> a == b
  {
  }

  lemma NoCodeStartsWithQuote(c: char)
    ensures EscapeChar(c)[0] != '"'
  {
  }

  /** The rest of a string literal after its opening quote, and what follows the literal. */
  function Closed(s: string, x: string): string {
    Escape(s) + "\"" + x
  }

  lemma ClosedStep(s: string, x: string)
    requires s != ""
    ensures Closed(s, x) == EscapeChar(s[0]) + Closed(s[1..], x)
    ensures Closed(s, x)[0] == EscapeChar(s[0])[0]
  {
    assert Escape(s) == EscapeChar(s[0]) + Escape(s[1..]);
    hide *;
    assert EscapeChar(s[0]) + Escape(s[1..]) + "\"" + x == EscapeChar(s[0]) + (Escape(s[1..]) + "\"" + x);
  }

  lemma ClosedEmpty(x: string)
    ensures Closed("", x) == "\"" + x && Closed("", x)[0] == '"' && Closed("", x)[1..] == x
  {
  }

  lemma {:induction false} EscapeIsUnambiguous(s: string, t: string, x: string, y: string)
    requires Closed(s, x) == Closed(t, y)
    ensures s == t && x == y
    decreases |s|
  {
    if s != "" { ClosedStep(s, x); NoCodeStartsWithQuote(s[0]); } else { ClosedEmpty(x); }
    if t != "" { ClosedStep(t, y); NoCodeStartsWithQuote(t[0]); } else { ClosedEmpty(y); }
    if s != "" {
      EscapeCodeIsPrefixFree(s[0], t[0], Closed(s[1..], x), Closed(t[1..], y));
      EscapeIsUnambiguous(s[1..], t[1..], x, y);
      assert s == [s[0]] + s[1..] && t == [t[0]] + t[1..];
    }
  }

  lemma StringIsUnambiguous(s: string, t: string, x: string, y: string)
    requires StringText(s) + x == StringText(t) + y
    ensures s == t && x == y
  {
    assert (StringText(s) + x)[1..] == Closed(s, x);
    assert (StringText(t) + y)[1..] == Closed(t, y);
    EscapeIsUnambiguous(s, t, x, y);
  }

  // ---- Numbers -----------------------------------------------------------------------------------------

  predicate IsDigit(c: char) {
    '0' <= c <= '9'
  }

  lemma {:induction false} NatTextDigits(n: nat)
    ensures Text.NatText(n) != ""
    ensures forall i :: 0 <= i < |Text.NatText(n)| ==> IsDigit(Text.NatText(n)[i])
  {
    if n >= 10 { NatTextDigits(n / 10); }
  }

  lemma NatTextLast(n: nat)
    ensures var s := Text.NatText(n);
            s != "" && s[|s| - 1] == Text.DigitChar(n % 10) && (|s| == 1 <==> n < 10)
    ensures n >= 10 ==> Text.NatText(n)[..|Text.NatText(n)| - 1] == Text.NatText(n / 10)
  {
    if n >= 10 { NatTextDigits(n / 10); }
  }

  lemma {:induction false} NatTextInjective(m: nat, n: nat)
    requires Text.NatText(m) == Text.NatText(n)
    ensures m == n
  {
    NatTextLast(m);
    NatTextLast(n);
    if m >= 10 { NatTextInjective(m / 10, n / 10); }
  }

  predicate Delimited(x: string) {
    x == "" || x[0] in {',', ']', '}'}
  }

  function DigitRun(text: string): nat {
    if text == "" || !IsDigit(text[0]) then 0 else 1 + DigitRun(text[1..])
  }

  lemma {:induction false} DigitRunOf(s: string, x: string)
    requires (forall i :: 0 <= i < |s| ==> IsDigit(s[i])) && Delimited(x)
    ensures DigitRun(s + x) == |s|
  {
    if s == "" {
      assert s + x == x;
    } else {
      assert (s + x)[1..] == s[1..] + x;
      DigitRunOf(s[1..], x);
    }
  }

  lemma NatIsUnambiguous(m: nat, n: nat, x: string, y: string)
    requires Text.NatText(m) + x == Text.NatText(n) + y && Delimited(x) && Delimited(y)
    ensures m == n && x == y
  {
    var s, t := Text.NatText(m), Text.NatText(n);
    NatTextDigits(m);
    NatTextDigits(n);
    DigitRunOf(s, x);
    DigitRunOf(t, y);
    assert (s + x)[..|s|] == s && (t + y)[..|t|] == t;
    assert (s + x)[|s|..] == x && (t + y)[|t|..] == y;
    NatTextInjective(m, n);
  }

  lemma IntTextStart(n: int, x: string)
    ensures var text := Text.IntText(n) + x;
            text != "" && (text[0] == '-' <==> n < 0) && (text[0] == '-' || IsDigit(text[0]))
    ensures n < 0 ==> (Text.IntText(n) + x)[1..] == Text.NatText(-n) + x
  {
    NatTextDigits(if n < 0 then -n else n);
  }

  lemma IntIsUnambiguous(m: int, n: int, x: string, y: string)
    requires Text.IntText(m) + x == Text.IntText(n) + y && Delimited(x) && Delimited(y)
    ensures m == n && x == y
  {
    IntTextStart(m, x);
    IntTextStart(n, y);
    if m < 0 { NatIsUnambiguous(-m, -n, x, y); } else { NatIsUnambiguous(m, n, x, y); }
  }

  // ---- The key order is a strict total order -----------------------------------------------------------

  lemma {:induction false} BeforeIrreflexive(a: seq<int>)
    ensures !Before(a, a)
  {
    if a != [] { BeforeIrreflexive(a[1..]); }
  }

  lemma {:induction false} BeforeTransitive(a: seq<int>, b: seq<int>, c: seq<int>)
    requires Before(a, b) && Before(b, c)
    ensures Before(a, c)
  {
    if a != [] && a[0] == b[0] && b[0] == c[0] { BeforeTransitive(a[1..], b[1..], c[1..]); }
  }

  lemma {:induction false} BeforeTotal(a: seq<int>, b: seq<int>)
    ensures Before(a, b) || Before(b, a) || a == b
  {
    if a != [] && b != [] && a[0] == b[0] {
      BeforeTotal(a[1..], b[1..]);
      assert a == [a[0]] + a[1..] && b == [b[0]] + b[1..];
    }
  }

  lemma UnitsArePrefixFree(c: char, d: char, u: seq<int>, v: seq<int>)
    requires Units(c) + u == Units(d) + v
    ensures c == d && u == v
  {
    var e, f := Units(c), Units(d);
    assert (e + u)[0] == e[0] && (f + v)[0] == f[0];
    assert |e| == |f|;
    if |e| == 2 { assert (e + u)[1] == e[1] && (f + v)[1] == f[1]; }
    assert (e + u)[|e|..] == u && (f + v)[|f|..] == v;
  }

  lemma {:induction false} Utf16Injective(s: string, t: string)
    requires Utf16(s) == Utf16(t)
    ensures s == t
  {
    if s != "" && t != "" {
      UnitsArePrefixFree(s[0], t[0], Utf16(s[1..]), Utf16(t[1..]));
      Utf16Injective(s[1..], t[1..]);
      assert s == [s[0]] + s[1..] && t == [t[0]] + t[1..];
    }
  }

  /** Two different keys are ordered one way and not the other. */
  lemma KeyOrderIsStrictTotal(a: string, b: string)
    ensures KeyBefore(a, b) || KeyBefore(b, a) || a == b
    ensures !(KeyBefore(a, b) && KeyBefore(b, a)) && !KeyBefore(a, a)
  {
    BeforeTotal(Utf16(a), Utf16(b));
    BeforeIrreflexive(Utf16(a));
    if KeyBefore(a, b) && KeyBefore(b, a) { BeforeTransitive(Utf16(a), Utf16(b), Utf16(a)); }
    if Utf16(a) == Utf16(b) { Utf16Injective(a, b); }
  }

  // ---- Sorting depends only on the entries -----------------------------------------------------------

  predicate Sorted(entries: seq<Entry>) {
    forall i, j :: 0 <= i < j < |entries| ==> KeyBefore(entries[i].key, entries[j].key)
  }

  lemma {:induction false} InsertSorts(e: Entry, sorted: seq<Entry>)
    requires Sorted(sorted) && forall x :: x in sorted ==> x.key != e.key
    ensures Sorted(InsertEntry(e, sorted))
  {
    if sorted != [] {
      assert sorted[0] in sorted;
      KeyOrderIsStrictTotal(sorted[0].key, e.key);
      if KeyBefore(sorted[0].key, e.key) {
        InsertSorts(e, sorted[1..]);
        var rest := InsertEntry(e, sorted[1..]);
        forall j | 0 <= j < |rest| ensures KeyBefore(sorted[0].key, rest[j].key) {
          assert rest[j] in rest;
        }
      } else {
        forall j | 0 <= j < |sorted| ensures KeyBefore(e.key, sorted[j].key) {
          if j > 0 { BeforeTransitive(Utf16(e.key), Utf16(sorted[0].key), Utf16(sorted[j].key)); }
        }
      }
    }
  }

  lemma {:induction false} SortSorts(entries: seq<Entry>)
    requires DistinctKeys(entries)
    ensures Sorted(SortEntries(entries))
  {
    if entries != [] {
      SortSorts(entries[1..]);
      InsertSorts(entries[0], SortEntries(entries[1..]));
    }
  }
}
