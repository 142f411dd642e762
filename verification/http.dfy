/**
 * The outcome of one remote call, with transport, URLs and JSON parsing
 * abstracted away.
 */
module Http {
  import opened Wrappers
  import opened JsValue

  /**
   * `Thrown`: the request itself rejected (network failure; for axios also
   * any non-2xx status, which this model reports as `Response(false, _)`).
   * `Response(ok, body)`: a status arrived; `ok` is a 2xx status, and `body`
   * is the parsed JSON, or `None` when the body is not valid JSON.
   */
  datatype Outcome =
    | Thrown
    | Response(ok: bool, body: Option<Value>)

  /**
   * The value `await res.json()` yields, or `None` when the call or the
   * parse throws; `fetch` never rejects on a status, so `ok` plays no part.
   */
  function JsonBody(o: Outcome): (r: Option<Value>)
    ensures o.Thrown? ==> r.None?
    ensures o.Response? ==> r == o.body
  {
    match o
    case Thrown => None
    case Response(_, body) => body
  }

  /** The `Authorization` header the offers page sends: `Bearer ${token}`. */
  function BearerHeader(token: Option<string>): (r: string)
    ensures token.Some? ==> r == "Bearer " + token.value
    ensures token.None? ==> r == "Bearer null"
  {
    "Bearer " + (match token case Some(t) => t case None => "null")
  }
}
