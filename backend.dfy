/**
 * The backend is outside the model. Every request it answers is an input:
 * the response is either OK with a decoded payload, not OK, or the request
 * (or the decoding of its body) threw.
 */
module Backend {
  import opened Wrappers

  /** What a `catch` clause receives: an `Error` object with its message, or any other value. */
  datatype Thrown = ErrorObject(message: string) | NonErrorValue

  /** The outcome of one `fetch` and the decoding of its JSON body. */
  datatype Response<T> = Ok(body: T) | NotOk | Threw(thrown: Thrown)

  const UnknownError := "An unknown error occurred"

  /** `err instanceof Error ? err.message : "An unknown error occurred"` */
  function CaughtMessage(t: Thrown): (m: string)
    ensures t.ErrorObject? ==> m == t.message
    ensures t.NonErrorValue? ==> m == UnknownError
  {
    match t
    case ErrorObject(m) => m
    case NonErrorValue => UnknownError
  }

  /**
   * The message a component stores after a failed request: a non-OK
   * response throws `new Error(notOkMessage)`, which its own catch receives.
   */
  function FailureMessage<T>(r: Response<T>, notOkMessage: string): (m: string)
    requires !r.Ok?
    ensures r.NotOk? ==> m == notOkMessage
    ensures r.Threw? ==> m == CaughtMessage(r.thrown)
  {
    if r.NotOk? then notOkMessage else CaughtMessage(r.thrown)
  }

  /** `!token` is false exactly for a non-null, non-empty token string. */
  predicate HasToken(token: Option<string>)
    ensures HasToken(token) <==> token != None && token != Some("")
  {
    token.Some? && token.value != ""
  }

  /** The header value `Bearer ${token}`; a null token is rendered as "null". */
  function BearerHeader(token: Option<string>): (h: string)
    ensures |h| >= 7 && h[..7] == "Bearer "
    ensures token.Some? ==> h[7..] == token.value
    ensures token.None? ==> h[7..] == "null"
  {
    "Bearer " + (if token.Some? then token.value else "null")
  }
}
