/** Shared value types: optional values, results, HTTP outcomes, JSON values and
    the requests the two frontend services put on the wire. */
module Common {

  /** A nullable slot: `None` is JavaScript's `null` / Python's `None`. */
  datatype Option<T> = None | Some(value: T)

  /** A computation that either returns a value or raises an error. */
  datatype Result<T, E> = Success(value: T) | Failure(error: E)

  /** How an HTTP request settles: the decoded body, or the error's `message`. */
  datatype Outcome<T> = Ok(body: T) | Err(message: string)

  /** JSON values as `JSON.parse` produces them; numbers are opaque reals. */
  datatype Json =
    | JNull
    | JBool(b: bool)
    | JNumber(n: real)
    | JString(s: string)
    | JArray(items: seq<Json>)
    | JObject(fields: map<string, Json>)

  /** One HTTP request issued by a frontend service. */
  datatype Request = Get(url: string) | Post(url: string, body: Json)
}
