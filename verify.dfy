/** The token verification endpoint: bearer extraction, then the oracle's verdict
    as a response. */
module Verify {
  import opened Wrappers
  import opened Http
  import opened Tokens
  import Middleware

  const MSG_NOT_FOUND := "Token tidak ditemukan"
  const MSG_INVALID := "Token tidak valid atau sudah expired"
  const MSG_VALID := "Token valid"

  /** The method and the `Authorization` header of a request. */
  datatype VerifyRequest = VerifyRequest(verb: string, authorization: Option<string>)

  function Invalid(message: string): Response {
    Response(401, Some(Body(false, message, Some(false), None, None, None, None, None)), [])
  }

  /** The verify `handler`. */
  function HandleVerify(req: VerifyRequest, verify: Verifier): (r: Response)
    ensures req.verb == OPTIONS ==> r == Preflight()
    ensures req.verb != OPTIONS ==> r.body.Some? && r.body.value.valid == Some(r.body.value.success)
    ensures req.verb != OPTIONS ==> r.status in {200, 401} && (r.status == 200 <==> r.body.value.success)
    ensures req.verb != OPTIONS ==>
      (r.status == 200 <==> BearerToken(req.authorization).Some? && verify(BearerToken(req.authorization).value).Decoded?)
    ensures req.verb != OPTIONS && BearerToken(req.authorization).None? ==> r == Invalid(MSG_NOT_FOUND)
    ensures (req.verb != OPTIONS && BearerToken(req.authorization).Some?
             && !verify(BearerToken(req.authorization).value).Decoded?) ==> r == Invalid(MSG_INVALID)
    ensures req.verb != OPTIONS && r.status == 200 ==>
      r.body.value.user == Some(verify(BearerToken(req.authorization).value).username)
  {
    if req.verb == OPTIONS then Preflight()
    else
      var token := BearerToken(req.authorization);
      if token.None? then Invalid(MSG_NOT_FOUND)
      else
        match verify(token.value)
        case Decoded(username, _) =>
          Response(200, Some(Body(true, MSG_VALID, Some(true), Some(username), None, None, None, None)), [])
        case _ => Invalid(MSG_INVALID)
  }

  /** The endpoint and the middleware's `verifyJwtToken` accept the same headers and
      decode the same user; only the middleware tells the failures apart. */
  lemma AgreesWithMiddleware(req: VerifyRequest, verify: Verifier)
    requires req.verb != OPTIONS
    ensures HandleVerify(req, verify).status == 200 <==> Middleware.VerifyJwtToken(req.authorization, verify).valid
    ensures HandleVerify(req, verify).status == 200 ==>
      HandleVerify(req, verify).body.value.user == Middleware.VerifyJwtToken(req.authorization, verify).user
  {
  }
}
