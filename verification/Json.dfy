/** JSON values, and the reads the harness makes of them. */
module Json {
  datatype Json =
    | Null
    | Bool(value: bool)
    | Num(number: int)
    | Str(text: string)
    | Arr(items: seq<Json>)
    | Obj(fields: map<string, Json>)

  /** The value under a key; a missing key and a value that is not an object both read as null. */
  function Get(j: Json, key: string): Json {
    if j.Obj? && key in j.fields then j.fields[key] else Null
  }

  /** Text as the auditors take it: null reads as empty; any other value that is not text reads as text matching nothing. */
  function TextOf(j: Json): string {
    match j
    case Str(s) => s
    case Null => ""
    case _ => "?"
  }

  /** A step from a value down to a part of it. */
  datatype Step = Field(key: string) | Item(index: nat)
}
