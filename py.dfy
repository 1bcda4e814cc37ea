// Python-level values that the library handles: decoded JSON, the exceptions
// it raises or lets escape, and the outcome of a call that may raise.
module Py {

  datatype Option<T> = None | Some(value: T)

  /** A value as decoded by `response.json()`: JSON floats are modelled as reals. */
  datatype Json =
    | JInt(i: int)
    | JFloat(x: real)
    | JStr(s: string)
    | JBool(b: bool)
    | JNull
    | JArray(items: seq<Json>)
    | JObject(members: map<string, Json>)

  /** A decoded JSON object, that is, a Python `dict` with string keys. */
  type Record = map<string, Json>

  /** The Python exceptions the modelled code raises or lets escape. */
  datatype Exception =
    | ValueError(arg: Json)
    | KeyError(key: Json)
    /**
     * The KeyError a `dict` raises when it is sliced with `[:stop]`: since
     * Python 3.12 a slice is hashable, so the dict looks it up as a key.
     */
    | SliceKeyError(stop: int)
    | TypeError
    | IndexError
    | AttributeError
    /** An exception raised by the HTTP layer (`raise_for_status`, transport). */
    | HttpError(status: int)

  /** The outcome of a call: a returned value, or the exception it raised. */
  datatype Result<T> = Ok(value: T) | Err(error: Exception)

  /** Python truthiness of an optional string argument (`not fromDate`). */
  predicate Falsy(s: Option<string>)
  {
    s.None? || s.value == ""
  }
}
