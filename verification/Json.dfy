/** JSON values as the decoder, the tool schemas and the price catalogue see them. */
module JsonValue {
  import opened Base
  import opened Decimal

  /** A number is the text serde_json prints for it; an object keeps one value per key. */
  datatype Json =
    | Null
    | Bool(flag: bool)
    | Number(text: string)
    | Str(chars: string)
    | Arr(items: seq<Json>)
    | Obj(fields: map<string, Json>)

  /** Indexing by key: anything but an object, and a missing key, give null. */
  function Get(value: Json, key: string): Json {
    if value.Obj? && key in value.fields then value.fields[key] else Null
  }

  function AsString(value: Json): Option<string> {
    if value.Str? then Some(value.chars) else None
  }

  function AsU64(value: Json): Option<u64> {
    if value.Number? && value.text != "" && AllDigits(value.text) && Value(value.text) <= U64_MAX
    then Some(Value(value.text)) else None
  }

  function AsBool(value: Json): Option<bool> {
    if value.Bool? then Some(value.flag) else None
  }

  /** A member that is present and not null. */
  function Present(value: Json, key: string): Option<Json> {
    if value.Obj? && key in value.fields && !value.fields[key].Null? then Some(value.fields[key]) else None
  }
}
