/**
  Abstract JSON values and the accessors the Qt JSON classes offer.

  `QJsonDocument::fromJson` and `QJsonDocument::toJson(Compact)` belong to a
  foreign library: they are not modelled here but passed around as a `Codec`,
  a pair of total functions the caller fixes once.  Numbers are kept as
  integers because nothing in the model computes with them.
*/
module JsonModel {

  datatype Option<+T> = None | Some(value: T)

  datatype Json =
    | JNull
    | JBool(b: bool)
    | JNumber(n: int)
    | JString(s: string)
    | JArray(elems: seq<Json>)
    | JObject(fields: map<string, Json>)

  type JsonObject = map<string, Json>

  /** The JSON text parser and the compact serialiser, left uninterpreted. */
  datatype Codec = Codec(parse: string -> Option<Json>, compact: JsonObject -> string)

  /** `obj[key]` / `obj.value(key)`: an absent key reads as an undefined value. */
  function Field(o: JsonObject, key: string): Json
  {
    if key in o then o[key] else JNull
  }

  /** `QJsonValue::toString()`: the empty string for anything but a string. */
  function AsString(v: Json): string
  {
    if v.JString? then v.s else ""
  }

  /** `QJsonValue::toObject()`: the empty object for anything but an object. */
  function AsObject(v: Json): JsonObject
  {
    if v.JObject? then v.fields else map[]
  }

  /** `QJsonValue::toArray()`: the empty array for anything but an array. */
  function AsArray(v: Json): seq<Json>
  {
    if v.JArray? then v.elems else []
  }

  /** `QJsonDocument::fromJson(s)` followed by `isObject()` / `object()`. */
  function ParseObject(c: Codec, s: string): Option<JsonObject>
  {
    match c.parse(s)
    case Some(JObject(m)) => Some(m)
    case _ => None
  }

  /** `QJsonDocument::fromJson(s).object()`: text that is no JSON object yields `{}`. */
  function ObjectOrEmpty(c: Codec, s: string): JsonObject
  {
    match ParseObject(c, s)
    case Some(m) => m
    case None => map[]
  }
}
