/**
 The small part of the JavaScript runtime that the wholesale core relies on.

 The core calls `parseFloat`, `parseInt(_, 10)`, `JSON.parse` and `JSON.stringify`.
 Their exact string semantics (prefix parsing, exponent forms, whitespace, the
 full JSON grammar) are not part of this model: they are given to every
 operation as a `Runtime` record of total functions, where `None` stands for
 `NaN` (a failed numeric parse) or for a `JSON.parse` that throws.
 */
module Js {

  datatype Option<+T> = None | Some(value: T)

  /** A value as `JSON.parse` returns it. */
  datatype Json =
    | JNull
    | JBool(b: bool)
    | JNum(n: real)
    | JStr(s: string)
    | JArr(items: seq<Json>)
    | JObj(members: map<string, Json>)

  /** The runtime functions the core calls. */
  datatype Runtime = Runtime(
    parseFloat: string -> Option<real>,
    parseInt: string -> Option<int>,
    jsonParse: string -> Option<Json>,
    jsonStringify: Json -> string)

  /** JavaScript truthiness of an optional string read through `?.`:
      absent (undefined or null) and the empty string are falsy. */
  predicate Truthy(v: Option<string>)
  {
    v.Some? && v.value != ""
  }
}
