/** Responses as records: the status code, the JSON body (absent for the bare
    `res.status(200).end()` of a preflight) and the cookies set with `Set-Cookie`. */
module Http {
  import opened Wrappers

  const OPTIONS := "OPTIONS"

  /** A cookie by name, value and `Max-Age` in seconds; the fixed attributes
      (`HttpOnly; Secure; SameSite=Strict; Path=/`) are the same on every cookie. */
  datatype Cookie = Cookie(name: string, value: string, maxAge: int)

  /** The JSON body. Every body has `success` and `message`; the other keys appear
      only in some responses (`None` is an absent key or `null`). */
  datatype Body = Body(
    success: bool,
    message: string,
    valid: Option<bool>,
    user: Option<string>,
    token: Option<string>,
    refreshToken: Option<string>,
    expiresIn: Option<int>,
    retryAfter: Option<int>)

  datatype Response = Response(status: int, body: Option<Body>, cookies: seq<Cookie>)

  /** The answer to a CORS preflight: 200 with no body. */
  function Preflight(): Response {
    Response(200, None, [])
  }

  /** `{success: false, message}` with the given status. */
  function Failure(status: int, message: string): Response {
    Response(status, Some(Body(false, message, None, None, None, None, None, None)), [])
  }

  /** The body's `success` flag, or false when there is no body. */
  function Succeeded(r: Response): bool {
    r.body.Some? && r.body.value.success
  }

  /** The body's message, or the empty string when there is no body. */
  function MessageOf(r: Response): string {
    if r.body.Some? then r.body.value.message else ""
  }
}
