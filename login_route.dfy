/**
 * `POST /api/auth/login` (app/api/auth/login/route.ts): validates the JSON
 * body, forwards it to the backend's login endpoint, relays errors, and on
 * success sets the `auth_token` cookie from the backend's token.
 */
module LoginRoute {
  import opened Wrappers
  import opened Json
  import opened Http

  const AuthBase: string := "http://192.168.1.5:5000/api/auth"

  /** The cookie the route sets on success (http-only, path "/"). */
  datatype LoginResult = LoginResult(sent: Option<Request>, authCookie: Option<Json>, response: HttpResponse)

  /** `!body?.email || !body?.password`. */
  predicate MissingCredentials(body: Option<Json>) {
    !IsTruthy(MemberOf(body, "email")) || !IsTruthy(MemberOf(body, "password"))
  }

  function LoginRequest(body: Json): Request {
    Request(POST, AuthBase + "/login", [Header("Content-Type", "application/json")], JsonPayload(body))
  }

  /** The text after "Login service unavailable: ": the error's message, or a fixed text for a non-Error throw. */
  function UnavailableDetail(error: Option<string>): string {
    error.GetOr("Unable to reach auth server")
  }

  /** `body` is the parsed request body, None when it did not parse. */
  function Login(body: Option<Json>, backend: Request -> Outcome): (r: LoginResult)
    ensures MissingCredentials(body) <==> r.response == MessageResponse(400, "Email and password are required") && r.sent.None?
    ensures !MissingCredentials(body) ==> r.sent == Some(LoginRequest(body.value))
    ensures r.sent.Some? ==>
              r.response == LoginResponse(backend(r.sent.value)) && r.authCookie == LoginCookie(backend(r.sent.value))
    ensures r.sent.None? ==> r.authCookie.None?
    ensures r.authCookie.Some? ==> r.response.status == 200 && Truthy(r.authCookie.value)
  {
    if MissingCredentials(body) then
      LoginResult(None, None, MessageResponse(400, "Email and password are required"))
    else
      var req := LoginRequest(body.value);
      LoginResult(Some(req), LoginCookie(backend(req)), LoginResponse(backend(req)))
  }

  /** The cookie value the route sets: the backend's token when the login succeeded and the token is truthy. */
  function LoginCookie(outcome: Outcome): (c: Option<Json>)
    ensures c.Some? <==> outcome.Response? && outcome.Ok() && IsTruthy(Member(ParsedBody(outcome.body), "token"))
    ensures c.Some? ==> Member(ParsedBody(outcome.body), "token") == c
  {
    if outcome.Response? && outcome.Ok() then
      var token := Member(ParsedBody(outcome.body), "token");
      if IsTruthy(token) then token else None
    else None
  }

  /** The response for the backend's outcome once the body was valid. */
  function LoginResponse(outcome: Outcome): (r: HttpResponse)
    ensures 200 <= r.status <= 299 <==> outcome.Response? && outcome.Ok()
    ensures outcome.TransportFailure? ==>
              r == MessageResponse(502, "Login service unavailable: " + UnavailableDetail(outcome.error))
    ensures outcome.Response? && !outcome.Ok() ==>
              r == HttpResponse(outcome.status, MessageObject(MessageOr(ParsedBody(outcome.body), "Login failed")))
    ensures outcome.Response? && outcome.Ok() ==>
              var data := ParsedBody(outcome.body);
              r == JsonResponse(JObj(map[
                     "ok" := JBool(true),
                     "user" := Coalesce(Member(data, "data"), JNull),
                     "token" := Coalesce(Member(data, "token"), JNull)]))
  {
    match outcome
    case TransportFailure(error) =>
      MessageResponse(502, "Login service unavailable: " + UnavailableDetail(error))
    case Response(status, body) =>
      var data := ParsedBody(body);
      if !outcome.Ok() then HttpResponse(status, MessageObject(MessageOr(data, "Login failed")))
      else JsonResponse(JObj(map[
             "ok" := JBool(true),
             "user" := Coalesce(Member(data, "data"), JNull),
             "token" := Coalesce(Member(data, "token"), JNull)]))
  }

  /** An empty email or password is refused like a missing one. */
  lemma EmptyCredentialsRefused(email: string, password: string, backend: Request -> Outcome)
    requires email == "" || password == ""
    ensures Login(Some(JObj(map["email" := JStr(email), "password" := JStr(password)])), backend).sent.None?
  {
  }

  /** A successful login without a token sets no cookie and answers `token: null`. */
  lemma NoTokenNoCookie(data: map<string, Json>)
    requires "token" !in data
    ensures LoginCookie(Response(200, Some(JObj(data)))).None?
    ensures LoginResponse(Response(200, Some(JObj(data)))).body.fields["token"] == JNull
  {
  }
}
