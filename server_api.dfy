/**
 * The authenticated proxies of lib/server-api.ts. Each one reads the
 * `auth_token` cookie, forwards the request to `SERVER_API_BASE + path` with a
 * bearer token, and turns the backend's answer into the route's response.
 * The backend is the function `backend`; `sent` records whether it was called.
 */
module ServerApi {
  import opened Wrappers
  import opened Json
  import opened Http
  import opened Constants

  datatype FormMethod = FormPost | FormPut

  /** Which of the five proxies is called, with what it forwards. */
  datatype ProxyOp =
    | ProxyGet
    | ProxyPost(body: Json)
    | ProxyPut(body: Json)
    | ProxyDelete
    | ProxyFormData(formMethod: FormMethod, entries: seq<FormEntry>)

  datatype Exchange = Exchange(sent: Option<Request>, response: HttpResponse)

  /** `if (!token)`: a missing cookie and an empty one are both refused. */
  predicate HasToken(token: Option<string>) {
    token.Some? && token.value != ""
  }

  function BearerHeader(token: string): Header {
    Header("Authorization", "Bearer " + token)
  }

  /**
   * The request each proxy sends: GET and DELETE carry no body, POST and PUT
   * the JSON body labelled as JSON, and a form upload the form under the
   * caller's method with no content type of its own (fetch writes the
   * multipart one).
   */
  function ProxyRequest(op: ProxyOp, token: string, path: string): (req: Request)
    ensures req.url == ServerApiBase + path
    ensures BearerHeader(token) in req.headers
    ensures op.ProxyGet? ==> req.verb == GET
    ensures op.ProxyPost? ==> req.verb == POST
    ensures op.ProxyPut? ==> req.verb == PUT
    ensures op.ProxyDelete? ==> req.verb == DELETE
    ensures op.ProxyFormData? ==> req.verb == (if op.formMethod == FormPost then POST else PUT)
    ensures req.payload.NoPayload? <==> op.ProxyGet? || op.ProxyDelete?
    ensures op.ProxyPost? || op.ProxyPut? ==>
              req.payload == JsonPayload(op.body) && Header("Content-Type", "application/json") in req.headers
    ensures op.ProxyFormData? ==> req.payload == FormPayload(op.entries)
    ensures !(op.ProxyPost? || op.ProxyPut?) ==> forall h :: h in req.headers ==> h.name != "Content-Type"
  {
    var url := ServerApiBase + path;
    match op
    case ProxyGet => Request(GET, url, [BearerHeader(token)], NoPayload)
    case ProxyPost(body) =>
      Request(POST, url, [Header("Content-Type", "application/json"), BearerHeader(token)], JsonPayload(body))
    case ProxyPut(body) =>
      Request(PUT, url, [Header("Content-Type", "application/json"), BearerHeader(token)], JsonPayload(body))
    case ProxyDelete => Request(DELETE, url, [BearerHeader(token)], NoPayload)
    case ProxyFormData(m, entries) =>
      Request(if m == FormPost then POST else PUT, url, [BearerHeader(token)], FormPayload(entries))
  }

  /** The fallback message of a relayed backend error. */
  function FailureMessage(op: ProxyOp): string {
    if op.ProxyDelete? then "Delete failed" else "Request failed"
  }

  /** The response a proxy returns for the backend's outcome. */
  function Relay(op: ProxyOp, outcome: Outcome): (r: HttpResponse)
    ensures 200 <= r.status <= 299 <==> outcome.Response? && outcome.Ok()
    ensures outcome.TransportFailure? ==> r == MessageResponse(502, "Backend unavailable")
    ensures outcome.Response? && op.ProxyDelete? && outcome.status == 204 ==>
              r == JsonResponse(JObj(map["ok" := JBool(true)]))
    ensures outcome.Response? && !(op.ProxyDelete? && outcome.status == 204) && !outcome.Ok() ==>
              r == HttpResponse(outcome.status, MessageObject(MessageOr(ParsedBody(outcome.body), FailureMessage(op))))
    ensures outcome.Response? && !(op.ProxyDelete? && outcome.status == 204) && outcome.Ok() ==>
              r == JsonResponse(ParsedBody(outcome.body))
  {
    match outcome
    case TransportFailure(_) => MessageResponse(502, "Backend unavailable")
    case Response(status, body) =>
      if op.ProxyDelete? && status == 204 then JsonResponse(JObj(map["ok" := JBool(true)]))
      else
        var data := ParsedBody(body);
        if !outcome.Ok() then HttpResponse(status, MessageObject(MessageOr(data, FailureMessage(op))))
        else JsonResponse(data)
  }

  /** One call of a proxy with the cookie value `token`. */
  function Proxy(op: ProxyOp, token: Option<string>, path: string, backend: Request -> Outcome): (x: Exchange)
    ensures !HasToken(token) ==> x == Exchange(None, MessageResponse(401, "Unauthorized"))
    ensures HasToken(token) ==>
              x.sent == Some(ProxyRequest(op, token.value, path))
              && x.response == Relay(op, backend(x.sent.value))
  {
    if !HasToken(token) then Exchange(None, MessageResponse(401, "Unauthorized"))
    else
      var req := ProxyRequest(op, token.value, path);
      Exchange(Some(req), Relay(op, backend(req)))
  }

  /** The backend is called exactly when a non-empty token is present. */
  lemma BackendCalledIffToken(op: ProxyOp, token: Option<string>, path: string, backend: Request -> Outcome)
    ensures Proxy(op, token, path, backend).sent.Some? <==> HasToken(token)
    ensures Proxy(op, token, path, backend).response.status == 401 && !HasToken(token) ==>
              Proxy(op, token, path, backend).sent.None?
  {
  }

  /** A backend error is relayed with the backend's own status and message. */
  lemma RelaysBackendError(op: ProxyOp, status: int, message: string)
    requires !(200 <= status <= 299) && !(op.ProxyDelete? && status == 204)
    ensures Relay(op, Response(status, Some(MessageObject(JStr(message))))) == MessageResponse(status, message)
  {
  }

  /** A backend error whose body does not parse gets the default message. */
  lemma UnparsedErrorGetsDefault(op: ProxyOp, status: int)
    requires !(200 <= status <= 299)
    ensures Relay(op, Response(status, None)) == MessageResponse(status, FailureMessage(op))
  {
  }

  /** Only the delete proxy turns a 204 into `{ ok: true }`; the others relay the (unparsed) body. */
  lemma OnlyDeleteShortCircuits204(op: ProxyOp, body: Option<Json>)
    ensures op.ProxyDelete? ==> Relay(op, Response(204, body)) == JsonResponse(JObj(map["ok" := JBool(true)]))
    ensures !op.ProxyDelete? ==> Relay(op, Response(204, body)) == JsonResponse(ParsedBody(body))
  {
  }

  /**
   * A transport failure and a backend that itself answers 502 with the message
   * "Backend unavailable" give the caller the same response: the status alone
   * does not tell the two apart.
   */
  lemma GatewayErrorsIndistinguishable(op: ProxyOp)
    ensures Relay(op, TransportFailure(None)) == Relay(op, Response(502, Some(MessageObject(JStr("Backend unavailable")))))
  {
  }
}
