/** What the client pages get back from their own API routes, and what they do about it. */
module Pages {
  import opened Wrappers
  import opened Json
  import opened Toasts

  /**
   * A page's `await fetch(...)` (followed by `await res.json()` where the page
   * reads the body): either call threw, or the route answered with `res.ok`
   * and a parsed body.
   */
  datatype ClientOutcome = Threw | Answered(ok: bool, body: Json)

  /** The observable reaction of a handler: the toast it shows and whether it refetches its list. */
  datatype Reaction = Reaction(notice: Option<Notice>, refetch: bool)

  /** No toast and no refetch. */
  const Silent: Reaction := Reaction(None, false)

  /**
   * The text a toast shows for `data?.message ?? fallback`: the backend's
   * message when it is a string, otherwise the fallback.
   */
  function NoticeText(data: Json, fallback: string): (t: string)
    ensures Member(data, "message").None? ==> t == fallback
    ensures forall m :: Member(data, "message") == Some(JStr(m)) ==> t == m
    ensures Member(data, "message") == Some(JStr(t)) || t == fallback
    ensures !(Member(data, "message").Some? && Member(data, "message").value.JStr?) ==> t == fallback
  {
    match Member(data, "message")
    case Some(JStr(m)) => m
    case _ => fallback
  }
}
