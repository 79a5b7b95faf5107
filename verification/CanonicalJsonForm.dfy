/** Two JSON values print to the same text exactly when they are equal as JSON values. */
module CanonicalJsonForm {
  import opened JsonValues
  import opened CanonicalJson
  import opened CanonicalJsonLaws
  import Text

  // ---- Equal values print alike -----------------------------------------------------------------------

  lemma SortedTail(es: seq<Entry>)
    requires Sorted(es) && es != []
    ensures Sorted(es[1..])
    ensures forall e :: e in es[1..] ==> KeyBefore(es[0].key, e.key) && e.key != es[0].key
    ensures Keys(es[1..]) == Keys(es) - {es[0].key}
  {
    forall e | e in es[1..] ensures KeyBefore(es[0].key, e.key) && e.key != es[0].key {
      var i :| 1 <= i < |es| && es[i] == e;
      KeyOrderIsStrictTotal(es[0].key, e.key);
    }
    assert es == [es[0]] + es[1..];
  }

  /** Two sorted lists with the same keys list them in the same order. */
  lemma {:induction false} SortedKeysMatch(es: seq<Entry>, fs: seq<Entry>)
    requires Sorted(es) && Sorted(fs) && Keys(es) == Keys(fs)
    ensures |es| == |fs| && forall i :: 0 <= i < |es| ==> es[i].key == fs[i].key
  {
    assert es != [] ==> es[0].key in Keys(es);
    assert fs != [] ==> fs[0].key in Keys(fs);
    if es != [] {
      SortedTail(es);
      SortedTail(fs);
      KeyOrderIsStrictTotal(es[0].key, fs[0].key);
      FirstKeyIsLeast(es, fs[0].key);
      FirstKeyIsLeast(fs, es[0].key);
      SortedKeysMatch(es[1..], fs[1..]);
    }
  }

  lemma FirstKeyIsLeast(es: seq<Entry>, key: string)
    requires Sorted(es) && es != [] && key in Keys(es)
    ensures key == es[0].key || KeyBefore(es[0].key, key)
  {
    var e :| e in es && e.key == key;
    var i :| 0 <= i < |es| && es[i] == e;
  }

  /** The sorted entries of two equal dictionaries agree entry by entry. */
  lemma SameDictsMatch(a: Json, b: Json)
    requires a.Dict? && b.Dict? && WellFormed(a) && WellFormed(b) && SameJson(a, b)
    ensures var es, fs := SortEntries(a.entries), SortEntries(b.entries);
            |es| == |fs| && forall i :: 0 <= i < |es| ==> es[i].key == fs[i].key && SameJson(es[i].value, fs[i].value)
  {
    var es, fs := SortEntries(a.entries), SortEntries(b.entries);
    SortSorts(a.entries);
    SortSorts(b.entries);
    assert Keys(es) == Keys(a.entries) && Keys(fs) == Keys(b.entries);
    SortedKeysMatch(es, fs);
    forall i | 0 <= i < |es| ensures SameJson(es[i].value, fs[i].value) {
      assert es[i] in a.entries && fs[i] in b.entries;
    }
  }

  lemma {:induction false} SameTextForSameValue(a: Json, b: Json)
    requires WellFormed(a) && WellFormed(b) && SameJson(a, b)
    ensures Canonicalize(a) == Canonicalize(b)
    decreases a, 1, 0
  {
    match a {
      case List(xs) => SameItemTexts(a, b, xs, b.items);
      case Dict(_) =>
        SameDictsMatch(a, b);
        SameEntryTexts(a, b, SortEntries(a.entries), SortEntries(b.entries));
      case _ =>
    }
  }

  lemma {:induction false} SameItemTexts(a: Json, b: Json, xs: seq<Json>, ys: seq<Json>)
    requires |xs| == |ys|
    requires forall i :: 0 <= i < |xs| ==> xs[i] < a && ys[i] < b
    requires forall i :: 0 <= i < |xs| ==> WellFormed(xs[i]) && WellFormed(ys[i]) && SameJson(xs[i], ys[i])
    ensures ItemTexts(a, xs) == ItemTexts(b, ys)
    decreases a, 0, |xs|
  {
    if xs != [] {
      SameTextForSameValue(xs[0], ys[0]);
      SameItemTexts(a, b, xs[1..], ys[1..]);
    }
  }

  lemma {:induction false} SameEntryTexts(a: Json, b: Json, es: seq<Entry>, fs: seq<Entry>)
    requires forall e :: e in es ==> e.value < a && WellFormed(e.value)
    requires forall f :: f in fs ==> f.value < b && WellFormed(f.value)
    requires |es| == |fs|
    requires forall i :: 0 <= i < |es| ==> es[i].key == fs[i].key && SameJson(es[i].value, fs[i].value)
    ensures EntryTexts(a, es) == EntryTexts(b, fs)
    decreases a, 0, |es|
  {
    if es != [] {
      assert es[0] in es && fs[0] in fs;
      SameTextForSameValue(es[0].value, fs[0].value);
      SameEntryTexts(a, b, es[1..], fs[1..]);
    }
  }

  // ---- Texts can be read back in one way ---------------------------------------------------------------

  /** The first character tells the kind of value, and is never a delimiter. */
  function Kind(c: char): nat {
    if c == 'n' then 0
    else if c == 't' then 1
    else if c == 'f' then 2
    else if c == '"' then 3
    else if c == '[' then 4
    else if c == '{' then 5
    else if c == '-' || IsDigit(c) then 6
    else 7
  }

  function KindOf(v: Json): nat {
    match v
    case Null => 0
    case Bool(b) => if b then 1 else 2
    case Str(_) => 3
    case List(_) => 4
    case Dict(_) => 5
    case Int(_) => 6
  }

  lemma StartsWithKind(v: Json, x: string)
    ensures var text := Canonicalize(v) + x;
            text != "" && Kind(text[0]) == KindOf(v)
  {
    if v.Int? { IntTextStart(v.number, x); }
  }

  /** Printed elements that have a comma before each of them, and then the closing bracket and the rest. */
  function Tail(texts: seq<string>, close: string): string {
    if texts == [] then close else "," + (texts[0] + Tail(texts[1..], close))
  }

  /** A printed body after its opening bracket. */
  function Body(texts: seq<string>, close: string): string {
    if texts == [] then close else texts[0] + Tail(texts[1..], close)
  }

  lemma {:induction false} JoinIsBody(texts: seq<string>, close: string)
    ensures Text.Join(",", texts) + close == Body(texts, close)
  {
    if |texts| == 0 {
      assert "" + close == close;
    } else if |texts| > 1 {
      JoinIsBody(texts[1..], close);
      var rest := Text.Join(",", texts[1..]);
      assert texts[0] + "," + rest + close == texts[0] + ("," + (rest + close));
    }
  }

  lemma CommaBody(texts: seq<string>, close: string)
    requires texts != []
    ensures Tail(texts, close) == "," + Body(texts, close)
  {
  }

  lemma {:induction false} Unambiguous(a: Json, b: Json, x: string, y: string)
    requires WellFormed(a) && WellFormed(b) && Delimited(x) && Delimited(y)
    requires Canonicalize(a) + x == Canonicalize(b) + y
    ensures SameJson(a, b) && x == y
    decreases a, 1, 0
  {
    StartsWithKind(a, x);
    StartsWithKind(b, y);
    match a {
      case Int(m) => IntIsUnambiguous(m, b.number, x, y);
      case Str(s) => StringIsUnambiguous(s, b.text, x, y);
      case List(xs) => ListUnambiguous(a, b, x, y);
      case Dict(es) => DictUnambiguous(a, b, x, y);
      case _ =>
        var text := Canonicalize(a);
        assert Canonicalize(b) == text;
        assert (text + x)[|text|..] == x && (text + y)[|text|..] == y;
    }
  }

  lemma ListBody(v: Json, x: string)
    requires v.List?
    ensures (Canonicalize(v) + x)[1..] == Body(ItemTexts(v, v.items), "]" + x)
  {
    var texts := ItemTexts(v, v.items);
    JoinIsBody(texts, "]" + x);
    assert (Canonicalize(v) + x)[1..] == Text.Join(",", texts) + ("]" + x);
  }

  lemma DictBody(v: Json, x: string)
    requires v.Dict?
    ensures (Canonicalize(v) + x)[1..] == Body(EntryTexts(v, SortEntries(v.entries)), "}" + x)
  {
    var texts := EntryTexts(v, SortEntries(v.entries));
    var inside := Text.Join(",", texts);
    assert Canonicalize(v) == "{" + inside + "}" by { hide Text.Join, EntryTexts, SortEntries; }
    hide *;
    assert (Canonicalize(v) + x)[1..] == inside + ("}" + x);
    JoinIsBody(texts, "}" + x);
  }

  /** A body is empty exactly when the bracket comes first. */
  lemma ItemsStart(v: Json, xs: seq<Json>, x: string)
    requires forall i :: 0 <= i < |xs| ==> xs[i] < v
    ensures var body := Body(ItemTexts(v, xs), "]" + x);
            body != "" && (body[0] == ']' <==> xs == [])
  {
    if xs != [] { StartsWithKind(xs[0], Tail(ItemTexts(v, xs[1..]), "]" + x)); }
  }

  lemma {:induction false} ListUnambiguous(a: Json, b: Json, x: string, y: string)
    requires a.List? && b.List? && WellFormed(a) && WellFormed(b)
    requires Canonicalize(a) + x == Canonicalize(b) + y
    ensures SameJson(a, b) && x == y
    decreases a, 0, |a.items| + 1
  {
    ListBody(a, x);
    ListBody(b, y);
    ItemsStart(a, a.items, x);
    ItemsStart(b, b.items, y);
    if a.items == [] {
      assert ("]" + x)[1..] == x && ("]" + y)[1..] == y;
    } else {
      CommaBody(ItemTexts(a, a.items), "]" + x);
      CommaBody(ItemTexts(b, b.items), "]" + y);
      ItemsUnambiguous(a, b, a.items, b.items, x, y);
    }
  }

  lemma {:induction false} ItemsUnambiguous(a: Json, b: Json, xs: seq<Json>, ys: seq<Json>, x: string, y: string)
    requires forall i :: 0 <= i < |xs| ==> xs[i] < a && WellFormed(xs[i])
    requires forall i :: 0 <= i < |ys| ==> ys[i] < b && WellFormed(ys[i])
    requires Tail(ItemTexts(a, xs), "]" + x) == Tail(ItemTexts(b, ys), "]" + y)
    ensures |xs| == |ys| && (forall i :: 0 <= i < |xs| ==> SameJson(xs[i], ys[i])) && x == y
    decreases a, 0, |xs|
  {
    var s, t := Tail(ItemTexts(a, xs), "]" + x), Tail(ItemTexts(b, ys), "]" + y);
    assert s[0] == (if xs == [] then ']' else ',') && t[0] == (if ys == [] then ']' else ',');
    if xs == [] {
      assert s[1..] == x && t[1..] == y;
    } else {
      var u, v := Tail(ItemTexts(a, xs[1..]), "]" + x), Tail(ItemTexts(b, ys[1..]), "]" + y);
      assert s[1..] == Canonicalize(xs[0]) + u && t[1..] == Canonicalize(ys[0]) + v;
      Unambiguous(xs[0], ys[0], u, v);
      ItemsUnambiguous(a, b, xs[1..], ys[1..], x, y);
    }
  }

  lemma EntriesStart(v: Json, es: seq<Entry>, x: string)
    requires forall e :: e in es ==> e.value < v
    ensures var body := Body(EntryTexts(v, es), "}" + x);
            body != "" && (body[0] == '}' <==> es == [])
  {
  }

  lemma {:induction false} DictUnambiguous(a: Json, b: Json, x: string, y: string)
    requires a.Dict? && b.Dict? && WellFormed(a) && WellFormed(b)
    requires Canonicalize(a) + x == Canonicalize(b) + y
    ensures SameJson(a, b) && x == y
    decreases a, 0, |a.entries| + 1
  {
    var es, fs := SortEntries(a.entries), SortEntries(b.entries);
    DictBody(a, x);
    DictBody(b, y);
    EntriesStart(a, es, x);
    EntriesStart(b, fs, y);
    if es == [] {
      assert ("}" + x)[1..] == x && ("}" + y)[1..] == y;
      assert Keys(a.entries) == Keys(b.entries) == {};
    } else {
      CommaBody(EntryTexts(a, es), "}" + x);
      CommaBody(EntryTexts(b, fs), "}" + y);
      EntriesUnambiguous(a, b, es, fs, x, y);
      MatchedDictsAreSame(a, b);
    }
  }

  lemma KeysOfMatched(es: seq<Entry>, fs: seq<Entry>)
    requires |es| == |fs| && forall i :: 0 <= i < |es| ==> es[i].key == fs[i].key
    ensures Keys(es) <= Keys(fs)
  {
    forall k | k in Keys(es) ensures k in Keys(fs) {
      var i :| 0 <= i < |es| && es[i].key == k;
      assert fs[i] in fs;
    }
  }

  lemma MatchedDictsAreSame(a: Json, b: Json)
    requires a.Dict? && b.Dict? && WellFormed(a) && WellFormed(b)
    requires var es, fs := SortEntries(a.entries), SortEntries(b.entries);
             |es| == |fs| && forall i :: 0 <= i < |es| ==> es[i].key == fs[i].key && SameJson(es[i].value, fs[i].value)
    ensures SameJson(a, b)
  {
    var es, fs := SortEntries(a.entries), SortEntries(b.entries);
    assert Keys(es) == Keys(a.entries) && Keys(fs) == Keys(b.entries);
    KeysOfMatched(es, fs);
    KeysOfMatched(fs, es);
    forall e, f | e in a.entries && f in b.entries && e.key == f.key
      ensures SameJson(e.value, f.value)
    {
      assert e in es;
      var i :| 0 <= i < |es| && es[i] == e;
      assert fs[i] in b.entries;
    }
  }

  lemma {:induction false} EntriesUnambiguous(a: Json, b: Json, es: seq<Entry>, fs: seq<Entry>, x: string, y: string)
    requires forall e :: e in es ==> e.value < a && WellFormed(e.value)
    requires forall f :: f in fs ==> f.value < b && WellFormed(f.value)
    requires Tail(EntryTexts(a, es), "}" + x) == Tail(EntryTexts(b, fs), "}" + y)
    ensures |es| == |fs| && x == y
    ensures forall i :: 0 <= i < |es| ==> es[i].key == fs[i].key && SameJson(es[i].value, fs[i].value)
    decreases a, 0, |es|
  {
    var s, t := Tail(EntryTexts(a, es), "}" + x), Tail(EntryTexts(b, fs), "}" + y);
    assert s[0] == (if es == [] then '}' else ',') && t[0] == (if fs == [] then '}' else ',');
    if es == [] {
      assert s[1..] == x && t[1..] == y;
    } else {
      assert es[0] in es && fs[0] in fs;
      var u, v := Tail(EntryTexts(a, es[1..]), "}" + x), Tail(EntryTexts(b, fs[1..]), "}" + y);
      var c, d := Canonicalize(es[0].value), Canonicalize(fs[0].value);
      assert s[1..] == StringText(es[0].key) + ":" + c + u && t[1..] == StringText(fs[0].key) + ":" + d + v;
      OneEntryUnambiguous(es[0].key, fs[0].key, c, d, u, v);
      Unambiguous(es[0].value, fs[0].value, u, v);
      EntriesUnambiguous(a, b, es[1..], fs[1..], x, y);
    }
  }

  lemma Regroup(a: string, c: string, u: string)
    ensures a + ":" + c + u == a + (":" + (c + u)) && (":" + (c + u))[1..] == c + u
  {
  }

  lemma OneEntryUnambiguous(k: string, l: string, c: string, d: string, u: string, v: string)
    requires StringText(k) + ":" + c + u == StringText(l) + ":" + d + v
    ensures k == l && c + u == d + v
  {
    Regroup(StringText(k), c, u);
    Regroup(StringText(l), d, v);
    StringIsUnambiguous(k, l, ":" + (c + u), ":" + (d + v));
  }

  /** The canonical text is a normal form: it identifies exactly the equal JSON values. */
  lemma CanonicalFormIsUnambiguous(a: Json, b: Json)
    requires WellFormed(a) && WellFormed(b)
    ensures Canonicalize(a) == Canonicalize(b) <==> SameJson(a, b)
  {
    if SameJson(a, b) { SameTextForSameValue(a, b); }
    if Canonicalize(a) == Canonicalize(b) {
      assert Canonicalize(a) + "" == Canonicalize(b) + "";
      Unambiguous(a, b, "", "");
    }
  }

  /** No canonical text is a proper prefix of another one followed by a delimiter. */
  lemma CanonicalTextsDoNotOverlap(a: Json, b: Json, x: string, y: string)
    requires WellFormed(a) && WellFormed(b) && Delimited(x) && Delimited(y)
    ensures Canonicalize(a) + x == Canonicalize(b) + y <==> SameJson(a, b) && x == y
  {
    if SameJson(a, b) { SameTextForSameValue(a, b); }
    if Canonicalize(a) + x == Canonicalize(b) + y { Unambiguous(a, b, x, y); }
  }
}
