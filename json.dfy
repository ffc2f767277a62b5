/** Parsed JSON documents, as `response.json()` hands them to the service. */
module JsonValues {
  import opened Wrappers

  /** A JSON value. Numbers are kept as integers; objects as maps from key to value. */
  datatype Json =
    | Null
    | Bool(b: bool)
    | Num(n: int)
    | Str(s: string)
    | Arr(items: seq<Json>)
    | Obj(fields: map<string, Json>)

  /** The exceptions the core can raise. */
  datatype Exc =
    | ValidationError(detail: string)  // rest_framework ValidationError({"detail": detail})
    | JsonDecodeError                  // response.json() on a body that is not JSON
    | KeyError(key: string)            // dict subscript with a missing key
    | TypeError                        // subscript or iteration on a value that does not support it
    | AttributeError                   // `.get` on a value that is not a dict

  /** Python's `j[key]` on a decoded JSON value, with a string key. */
  function Subscript(j: Json, key: string): (r: Result<Json, Exc>)
    ensures r.Success? <==> j.Obj? && key in j.fields
    ensures r.Success? ==> r.value == j.fields[key]
    ensures j.Obj? && key !in j.fields ==> r == Failure(KeyError(key))
    ensures !j.Obj? ==> r == Failure(TypeError)
  {
    match j
    case Obj(fields) => if key in fields then Success(fields[key]) else Failure(KeyError(key))
    case _ => Failure(TypeError)
  }
}
