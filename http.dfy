/**
 * The HTTP exchange between the Next.js route handlers and the backend,
 * reduced to values: the request a handler sends, the outcome `fetch`
 * delivers, and the JSON response (`NextResponse.json`) the handler returns.
 */
module Http {
  import opened Wrappers
  import opened Json

  datatype Method = GET | POST | PUT | DELETE

  datatype Header = Header(name: string, value: string)

  /** A `FormData` value: a text field or an uploaded file (identified by its name). */
  datatype FormValue = TextValue(text: string) | FileValue(fileName: string)

  datatype FormEntry = FormEntry(key: string, value: FormValue)

  datatype Payload =
    | NoPayload
    | JsonPayload(value: Json)           // `JSON.stringify(body)`
    | FormPayload(entries: seq<FormEntry>)

  datatype Request = Request(verb: Method, url: string, headers: seq<Header>, payload: Payload)

  /**
   * What awaiting `fetch` and then `res.json()` yields: the fetch threw
   * (carrying `error.message` when an `Error` was thrown), or a response whose
   * body either parsed (`Some`) or did not (`None`).
   */
  datatype Outcome =
    | TransportFailure(error: Option<string>)
    | Response(status: int, body: Option<Json>)
  {
    /** `res.ok`: a status in the range 200-299. */
    predicate Ok()
      requires Response?
    {
      200 <= status <= 299
    }
  }

  /** A JSON response returned by a route handler. */
  datatype HttpResponse = HttpResponse(status: int, body: Json)

  /** `await res.json().catch(() => ({}))`: a body that fails to parse reads as `{}`. */
  function ParsedBody(body: Option<Json>): (r: Json)
    ensures body.None? ==> r == JObj(map[])
    ensures body.Some? ==> r == body.value
  {
    body.GetOr(JObj(map[]))
  }

  /** `NextResponse.json(body)` without a status: 200. */
  function JsonResponse(body: Json): HttpResponse {
    HttpResponse(200, body)
  }

  /** `NextResponse.json({ message }, { status })`. */
  function MessageResponse(status: int, message: string): HttpResponse {
    HttpResponse(status, MessageObject(JStr(message)))
  }
}
