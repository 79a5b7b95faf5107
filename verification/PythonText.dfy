/** The text Python's `str` makes of a JSON value: a string as it is, and anything else as `repr` prints it. */
module PythonText {
  import opened JsonValues
  import CanonicalJson
  import Text

  function PyStr(v: Json): string {
    if v.Str? then v.text else Repr(v)
  }

  function Repr(v: Json): string {
    match v
    case Null => "None"
    case Bool(flag) => if flag then "True" else "False"
    case Int(number) => Text.IntText(number)
    case Str(text) => Quoted(text)
    case List(items) => "[" + Text.Join(", ", ItemReprs(items)) + "]"
    case Dict(entries) => "{" + Text.Join(", ", EntryReprs(entries)) + "}"
  }

  function ItemReprs(items: seq<Json>): seq<string> {
    if items == [] then [] else [Repr(items[0])] + ItemReprs(items[1..])
  }

  function EntryReprs(entries: seq<Entry>): seq<string> {
    if entries == [] then []
    else [Quoted(entries[0].key) + ": " + Repr(entries[0].value)] + EntryReprs(entries[1..])
  }

  /** In single quotes, or in double quotes when only single ones occur in the text. */
  function Quoted(text: string): string {
    var quote := if '\'' in text && '"' !in text then '"' else '\'';
    [quote] + Escaped(text, quote) + [quote]
  }

  function Escaped(text: string, quote: char): string {
    if text == "" then "" else EscapedChar(text[0], quote) + Escaped(text[1..], quote)
  }

  function EscapedChar(c: char, quote: char): string {
    if c == quote || c == '\\' then ['\\', c]
    else if c == '\n' then "\\n"
    else if c == '\r' then "\\r"
    else if c == '\t' then "\\t"
    else if c < ' ' || c == '\U{7F}' then
      ['\\', 'x', CanonicalJson.HexDigit(c as int / 16), CanonicalJson.HexDigit(c as int % 16)]
    else [c]
  }

  /** A few values as Python prints them. */
  lemma PrintedScalars()
    ensures PyStr(Null) == "None" && PyStr(Bool(true)) == "True" && PyStr(Bool(false)) == "False"
    ensures PyStr(Int(-7)) == "-7" && PyStr(Str("it's")) == "it's"
  {
  }

  lemma PrintedList()
    ensures PyStr(List([Str("a"), Int(1)])) == "['a', 1]"
  {
    hide Quoted;
    var items := [Str("a"), Int(1)];
    PlainQuoted();
    assert items[1..] == [Int(1)] && [Int(1)][1..] == [];
    assert ItemReprs([Int(1)]) == ["1"] + ItemReprs([]);
    assert ItemReprs(items) == ["'a'", "1"];
    assert ["'a'", "1"][1..] == ["1"];
  }

  lemma PrintedDict()
    ensures PyStr(Dict([Entry("k", Null)])) == "{'k': None}"
  {
    hide Quoted;
    var entries := [Entry("k", Null)];
    PlainQuoted();
    assert entries[1..] == [] && EntryReprs(entries[1..]) == [];
    assert "'k'" + ": " + "None" == "'k': None";
    assert EntryReprs(entries) == ["'k': None"];
  }

  /** Texts inside are quoted: in double quotes around a single one, and with line feeds, tabs and backslashes
      escaped. */
  lemma PrintedTexts()
    ensures Repr(Str("it's")) == "\"it's\"" && Repr(Str("\n\t\\")) == "'\\n\\t\\\\'"
    ensures Repr(Str("'\"")) == "'\\'\"'" && Repr(Str("\r\U{7F}\U{1}")) == "'\\r\\x7f\\x01'"
  {
    ApostropheQuoted();
    MarkedQuoted();
    BothQuoted();
    ControlsQuoted();
  }

  lemma PlainQuoted()
    ensures Quoted("a") == "'a'" && Quoted("k") == "'k'"
  {
    assert "a"[1..] == "" && "k"[1..] == "" && Escaped("", '\'') == "";
    assert Escaped("a", '\'') == "a" && Escaped("k", '\'') == "k";
    assert '\'' !in "a" && '\'' !in "k";
  }

  lemma ApostropheQuoted()
    ensures Quoted("it's") == "\"it's\""
  {
    assert "it's"[1..] == "t's" && "t's"[1..] == "'s" && "'s"[1..] == "s" && "s"[1..] == "";
    assert "it's"[2] == '\'';
    assert Escaped("s", '"') == "s" && Escaped("'s", '"') == "'s";
    assert Escaped("t's", '"') == "t's";
    assert Escaped("it's", '"') == "it's";
  }

  lemma BothQuoted()
    ensures Quoted("'\"") == "'\\'\"'"
  {
    assert "'\""[1..] == "\"" && "\""[1..] == "" && "'\""[1] == '"';
    assert Escaped("\"", '\'') == "\"" && Escaped("'\"", '\'') == "\\'\"";
  }

  lemma ControlsQuoted()
    ensures Quoted("\r\U{7F}\U{1}") == "'\\r\\x7f\\x01'"
  {
    var text := "\r\U{7F}\U{1}";
    assert text[1..] == "\U{7F}\U{1}" && text[1..][1..] == "\U{1}" && text[2..] == "\U{1}" && text[3..] == "";
    assert "\U{1}"[1..] == "" && '\'' !in text;
    assert Escaped("\U{1}", '\'') == "\\x01" && Escaped("\U{7F}\U{1}", '\'') == "\\x7f\\x01";
    assert Escaped(text, '\'') == "\\r\\x7f\\x01";
  }

  lemma MarkedQuoted()
    ensures Quoted("\n\t\\") == "'\\n\\t\\\\'"
  {
    assert "\n\t\\"[1..] == "\t\\" && "\t\\"[1..] == "\\" && "\\"[1..] == "";
    assert Escaped("\\", '\'') == "\\\\" && Escaped("\t\\", '\'') == "\\t\\\\";
    assert Escaped("\n\t\\", '\'') == "\\n\\t\\\\";
  }
}
