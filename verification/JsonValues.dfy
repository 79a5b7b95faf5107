/** JSON values as the program holds them after parsing: a dictionary keeps its insertion order. */
module JsonValues {

  datatype Json =
    | Null
    | Bool(flag: bool)
    | Int(number: int)
    | Str(text: string)
    | List(items: seq<Json>)
    | Dict(entries: seq<Entry>)

  datatype Entry = Entry(key: string, value: Json)

  const EMPTY_DICT: Json := Dict([])

  /** False in a condition. */
  predicate Falsy(v: Json) {
    FalsyNonDict(v) || v == EMPTY_DICT
  }

  /** False in a condition, and yet no dictionary. */
  predicate FalsyNonDict(v: Json) {
    v in {Null, Bool(false), Int(0), Str(""), List([])}
  }

  /** A value, or an empty dictionary in place of one that is false in a condition. */
  function OrEmpty(v: Json): Json {
    if FalsyNonDict(v) then EMPTY_DICT else v
  }
}
