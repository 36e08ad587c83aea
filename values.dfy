/** The values the client builds and reads: Python objects restricted to
    what a JSON document can carry, plus the usual Option and Result. */
module Values {

  datatype Option<+T> = None | Some(value: T)

  datatype Result<+T, +E> = Success(value: T) | Failure(error: E)

  /** A JSON document. Python's `None` is `JNull` (a `None` argument is
      serialised as `null`), a `dict` is `JObject`, a `list` is `JList`. */
  datatype Json =
    | JNull
    | JBool(b: bool)
    | JInt(i: int)
    | JReal(r: real)
    | JStr(s: string)
    | JList(items: seq<Json>)
    | JObject(fields: map<string, Json>)

  /** `j[key]` on a parsed document: `None` where Python raises (`KeyError`
      for a dict without the key, `TypeError` for anything but a dict). */
  function Get(j: Json, key: string): Option<Json>
  {
    if j.JObject? && key in j.fields then Some(j.fields[key]) else None
  }
}
