/**
 * The browser's cookie store as far as the `auth_token` session cookie goes:
 * the login route sets it with the HttpOnly attribute, the profile pages try to
 * clear it from script, and lib/server-api.ts reads it on every proxied call.
 * The storage rules follow section 5.3 of RFC 6265 (one host and the path "/").
 */
module Cookies {
  import opened Wrappers
  import opened Json
  import opened Http
  import opened ServerApi
  import opened LoginRoute

  datatype Cookie = Cookie(value: string, httpOnly: bool)

  /** Whether a cookie arrives in a Set-Cookie header or from a script's `document.cookie` write (a "non-HTTP" API). */
  datatype Channel = FromHttp | FromScript

  /** A cookie to store; `expired` is a Max-Age of zero or less, which evicts it at once. */
  datatype SetCookie = SetCookie(name: string, value: string, httpOnly: bool, expired: bool)

  /**
   * Whether the store takes the cookie: a header write always, a script write
   * only when neither the new cookie nor an old one of the same name is HttpOnly.
   */
  predicate Accepted(jar: map<string, Cookie>, c: SetCookie, via: Channel) {
    via == FromHttp || (!c.httpOnly && !(c.name in jar && jar[c.name].httpOnly))
  }

  /**
   * Storing a cookie: a script may neither create an HttpOnly cookie nor replace
   * one; otherwise the new cookie replaces any old one of the same name, and an
   * expired one is evicted straight away.
   */
  function Store(jar: map<string, Cookie>, c: SetCookie, via: Channel): (r: map<string, Cookie>)
    ensures !Accepted(jar, c, via) ==> r == jar
    ensures via == FromScript && c.name in jar && jar[c.name].httpOnly ==> r == jar
    ensures Accepted(jar, c, via) ==> (c.name in r <==> !c.expired)
    ensures Accepted(jar, c, via) && !c.expired ==> r[c.name] == Cookie(c.value, c.httpOnly)
    ensures forall n :: n != c.name ==> (n in r <==> n in jar) && (n in r ==> r[n] == jar[n])
  {
    if via == FromScript && c.httpOnly then jar
    else if via == FromScript && c.name in jar && jar[c.name].httpOnly then jar
    else if c.expired then jar - {c.name}
    else jar[c.name := Cookie(c.value, c.httpOnly)]
  }

  /** `cookieStore.get("auth_token")?.value ?? null`, the token the proxies read. */
  function TokenOf(jar: map<string, Cookie>): (t: Option<string>)
    ensures t.Some? <==> "auth_token" in jar
    ensures t.Some? ==> t.value == jar["auth_token"].value
  {
    if "auth_token" in jar then Some(jar["auth_token"].value) else None
  }

  /** The cookie the login route sets when the backend returns a string token. */
  function AfterLogin(jar: map<string, Cookie>, r: LoginResult): (j: map<string, Cookie>)
    ensures r.authCookie.Some? && r.authCookie.value.JStr? ==>
              j == jar["auth_token" := Cookie(r.authCookie.value.s, true)]
    ensures !(r.authCookie.Some? && r.authCookie.value.JStr?) ==> j == jar
  {
    match r.authCookie
    case Some(JStr(token)) => Store(jar, SetCookie("auth_token", token, true, false), FromHttp)
    case _ => jar
  }

  /** The profile pages' `document.cookie = "auth_token=; path=/; max-age=0"`, as written. */
  function ClientLogout(jar: map<string, Cookie>): (j: map<string, Cookie>)
    ensures "auth_token" in jar && jar["auth_token"].httpOnly ==> j == jar
    ensures !("auth_token" in jar && jar["auth_token"].httpOnly) ==> j == jar - {"auth_token"}
  {
    Store(jar, SetCookie("auth_token", "", false, true), FromScript)
  }

  /**
   * As written, logging out does not sign the browser out: the script cannot
   * touch the HttpOnly cookie the login set, so every proxy still sends the old
   * token to the backend.
   */
  lemma ClientLogoutKeepsToken(jar: map<string, Cookie>, r: LoginResult, token: string,
                               op: ProxyOp, path: string, backend: Request -> Outcome)
    requires r.authCookie == Some(JStr(token)) && token != ""
    ensures TokenOf(ClientLogout(AfterLogin(jar, r))) == Some(token)
    ensures Proxy(op, TokenOf(ClientLogout(AfterLogin(jar, r))), path, backend).sent
            == Some(ProxyRequest(op, token, path))
  {
  }

  /**
   * The evidently intended logout: the server expires the cookie in a
   * Set-Cookie header, the one channel allowed to remove an HttpOnly cookie.
   */
  function ServerLogout(jar: map<string, Cookie>): (r: map<string, Cookie>)
    ensures TokenOf(r).None?
    ensures forall n :: n != "auth_token" ==> (n in r <==> n in jar) && (n in r ==> r[n] == jar[n])
  {
    Store(jar, SetCookie("auth_token", "", true, true), FromHttp)
  }

  /** After the intended logout every proxy refuses with 401 and calls no backend, whatever the login left. */
  lemma ServerLogoutSignsOut(jar: map<string, Cookie>, r: LoginResult, op: ProxyOp, path: string, backend: Request -> Outcome)
    ensures Proxy(op, TokenOf(ServerLogout(AfterLogin(jar, r))), path, backend)
            == Exchange(None, MessageResponse(401, "Unauthorized"))
  {
  }
}
