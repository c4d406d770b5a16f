/**
 * `POST /api/auth/register` (app/api/auth/register/route.ts): copies the
 * incoming form into a fresh one without the client-only `confirmPassword`
 * field, forwards it to the backend's register endpoint, and relays the answer.
 */
module RegisterRoute {
  import opened Wrappers
  import opened Seqs
  import opened Json
  import opened Http

  const AuthBase: string := "http://127.0.0.1:5000/api/auth"

  datatype RegisterResult = RegisterResult(sent: Option<Request>, response: HttpResponse)

  /** `key !== "confirmPassword"`. */
  predicate Forwarded(e: FormEntry) {
    e.key != "confirmPassword"
  }

  function ForwardedEntries(incoming: seq<FormEntry>): seq<FormEntry> {
    Filter(incoming, Forwarded)
  }

  /** The entries with key `key`, in order: what `formData.getAll(key)` would list. */
  function EntriesWithKey(entries: seq<FormEntry>, key: string): seq<FormEntry> {
    Filter(entries, HasKey(key))
  }

  function HasKey(key: string): FormEntry -> bool {
    (e: FormEntry) => e.key == key
  }

  /** The copy loop: `for (const [key, value] of incoming.entries()) if (key !== "confirmPassword") formData.append(key, value)`. */
  method CopyForm(incoming: seq<FormEntry>) returns (formData: seq<FormEntry>)
    ensures formData == ForwardedEntries(incoming)
  {
    formData := [];
    var i := 0;
    while i < |incoming|
      invariant 0 <= i <= |incoming|
      invariant formData == ForwardedEntries(incoming[..i])
    {
      FilterSnoc(incoming[..i], incoming[i], Forwarded);
      assert incoming[..i + 1] == incoming[..i] + [incoming[i]];
      if incoming[i].key != "confirmPassword" {
        formData := formData + [incoming[i]];
      }
      i := i + 1;
    }
    assert incoming[..i] == incoming;
  }

  /** No `confirmPassword` entry is forwarded. */
  lemma NoConfirmPasswordForwarded(incoming: seq<FormEntry>)
    ensures forall e :: e in ForwardedEntries(incoming) ==> e.key != "confirmPassword"
  {
  }

  /**
   * Every other key keeps all its entries, repeated ones included, in their
   * order (the copy appends, it never overwrites).
   */
  lemma {:induction false} OtherKeysKept(incoming: seq<FormEntry>, key: string)
    requires key != "confirmPassword"
    ensures EntriesWithKey(ForwardedEntries(incoming), key) == EntriesWithKey(incoming, key)
    decreases |incoming|
  {
    if incoming != [] {
      var x, rest := incoming[0], incoming[1..];
      OtherKeysKept(rest, key);
      var head := if Forwarded(x) then [x] else [];
      assert ForwardedEntries(incoming) == head + ForwardedEntries(rest);
      FilterAppend(head, ForwardedEntries(rest), HasKey(key));
    }
  }

  function RegisterRequest(formData: seq<FormEntry>): Request {
    Request(POST, AuthBase + "/register", [], FormPayload(formData))
  }

  /** The response for the backend's outcome. */
  function RegisterResponse(outcome: Outcome): (r: HttpResponse)
    ensures 200 <= r.status <= 299 <==> outcome.Response? && outcome.Ok()
    ensures outcome.TransportFailure? ==>
              r == MessageResponse(502, "Signup service unavailable: " + outcome.error.GetOr("Unable to reach auth server"))
    ensures outcome.Response? && !outcome.Ok() ==>
              r == HttpResponse(outcome.status, MessageObject(MessageOr(ParsedBody(outcome.body), "Signup failed")))
    ensures outcome.Response? && outcome.Ok() ==>
              r.status == 200 && r.body.JObj? && r.body.fields.Keys == {"ok", "message", "user"}
              && r.body.fields["ok"] == JBool(true)
              && r.body.fields["message"] == MessageOr(ParsedBody(outcome.body), "Signup successful")
              && r.body.fields["user"] == Coalesce(Member(ParsedBody(outcome.body), "user"), JNull)
  {
    match outcome
    case TransportFailure(error) =>
      MessageResponse(502, "Signup service unavailable: " + error.GetOr("Unable to reach auth server"))
    case Response(status, body) =>
      var data := ParsedBody(body);
      if !outcome.Ok() then HttpResponse(status, MessageObject(MessageOr(data, "Signup failed")))
      else JsonResponse(JObj(map[
             "ok" := JBool(true),
             "message" := MessageOr(data, "Signup successful"),
             "user" := Coalesce(Member(data, "user"), JNull)]))
  }

  /** One call of the route; `incoming` is None when the request's form data did not parse. */
  method Register(incoming: Option<seq<FormEntry>>, backend: Request -> Outcome) returns (r: RegisterResult)
    ensures incoming.None? <==> r.sent.None?
    ensures incoming.None? ==> r.response == MessageResponse(400, "Invalid form data")
    ensures incoming.Some? ==>
              r.sent == Some(RegisterRequest(ForwardedEntries(incoming.value)))
              && r.response == RegisterResponse(backend(r.sent.value))
  {
    if incoming.None? {
      return RegisterResult(None, MessageResponse(400, "Invalid form data"));
    }
    var formData := CopyForm(incoming.value);
    var req := RegisterRequest(formData);
    r := RegisterResult(Some(req), RegisterResponse(backend(req)));
  }
}
