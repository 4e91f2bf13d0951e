/** The token refresh endpoint: a presented token that the oracle accepts buys a new
    access/refresh pair for the same user. */
module Refresh {
  import opened Wrappers
  import opened Http
  import opened Tokens
  import Login

  const MSG_MISSING_TOKEN := "Refresh token harus disediakan"
  const MSG_INVALID := "Token tidak valid atau sudah expired"
  const MSG_REFRESHED := "Token berhasil di-refresh"
  const MSG_SERVER_ERROR := "Terjadi error pada server"

  /** The method and the body's `refreshToken` (`None` when missing). */
  datatype RefreshRequest = RefreshRequest(verb: string, refreshToken: Option<string>)

  predicate Presented(req: RefreshRequest) {
    req.verb != OPTIONS && req.refreshToken.Some? && req.refreshToken.value != ""
  }

  /** The refresh `handler`. */
  function HandleRefresh(req: RefreshRequest, verify: Verifier, sign: Signer): (r: Response)
    ensures req.verb == OPTIONS ==> r == Preflight()
    ensures req.verb != OPTIONS && !Presented(req) ==> r == Failure(400, MSG_MISSING_TOKEN)
    ensures Presented(req) && !verify(req.refreshToken.value).Decoded? ==> r == Failure(401, MSG_INVALID)
    ensures req.verb != OPTIONS ==> r.status in {200, 400, 401, 500}
    ensures Presented(req) && verify(req.refreshToken.value).Decoded? ==>
      var username := verify(req.refreshToken.value).username;
      (r.status == 200 <==>
         sign(Claims(username, Access, TOKEN_EXPIRY)).Some? && sign(Claims(username, Refresh, REFRESH_TOKEN_EXPIRY)).Some?)
    ensures r.status == 500 ==> r == Failure(500, MSG_SERVER_ERROR)
    ensures req.verb != OPTIONS && r.status == 200 ==>
      && Presented(req) && verify(req.refreshToken.value).Decoded?
      && var username := verify(req.refreshToken.value).username;
         var token := sign(Claims(username, Access, TOKEN_EXPIRY));
         var refreshToken := sign(Claims(username, Refresh, REFRESH_TOKEN_EXPIRY));
         && token.Some? && refreshToken.Some?
         && r.body.Some? && r.body.value.success
         && r.body.value.token == token && r.body.value.refreshToken == refreshToken
         && r.body.value.expiresIn == Some(TOKEN_EXPIRY)
         && r.cookies == [Cookie("authToken", token.value, TOKEN_EXPIRY),
                          Cookie("refreshToken", refreshToken.value, REFRESH_TOKEN_EXPIRY)]
  {
    if req.verb == OPTIONS then Preflight()
    else if !Presented(req) then Failure(400, MSG_MISSING_TOKEN)
    else
      match verify(req.refreshToken.value)
      case Decoded(username, _) =>
        var pair := GenerateTokens(username);
        var token := sign(pair.access);
        var refreshToken := sign(pair.refresh);
        if token.None? || refreshToken.None? then Failure(500, MSG_SERVER_ERROR)
        else
          Response(200,
                   Some(Body(true, MSG_REFRESHED, None, None, token, refreshToken, Some(TOKEN_EXPIRY), None)),
                   [Cookie("authToken", token.value, TOKEN_EXPIRY),
                    Cookie("refreshToken", refreshToken.value, REFRESH_TOKEN_EXPIRY)])
      case _ => Failure(401, MSG_INVALID)
  }

  /** The new pair belongs to the user of the presented token: with an oracle that
      verifies fresh tokens, the new access token decodes to that user as an access
      token, and the new refresh token as a refresh token. */
  lemma RefreshPreservesSubject(req: RefreshRequest, verify: Verifier, sign: Signer)
    requires FreshTokensVerify(sign, verify)
    requires req.verb != OPTIONS && HandleRefresh(req, verify, sign).status == 200
    ensures verify(HandleRefresh(req, verify, sign).body.value.token.value)
         == Decoded(verify(req.refreshToken.value).username, Access)
    ensures verify(HandleRefresh(req, verify, sign).body.value.refreshToken.value)
         == Decoded(verify(req.refreshToken.value).username, Refresh)
  {
    var username := verify(req.refreshToken.value).username;
    assert verify(sign(Claims(username, Access, TOKEN_EXPIRY)).value) == Decoded(username, Access);
    assert verify(sign(Claims(username, Refresh, REFRESH_TOKEN_EXPIRY)).value) == Decoded(username, Refresh);
  }

  /** The `type` claim is never looked at: a token that decodes as an access token is
      answered exactly as one that decodes as a refresh token for the same user. */
  lemma TypeClaimIgnored(req: RefreshRequest, asAccess: Verifier, asRefresh: Verifier, sign: Signer)
    requires Presented(req)
    requires asRefresh(req.refreshToken.value).Decoded? && asRefresh(req.refreshToken.value).kind == Refresh
    requires asAccess(req.refreshToken.value) == Decoded(asRefresh(req.refreshToken.value).username, Access)
    ensures HandleRefresh(req, asAccess, sign) == HandleRefresh(req, asRefresh, sign)
    ensures HandleRefresh(req, asAccess, sign).status != 401
  {
  }

  /** Login with "remember me", then refresh with the token it returned: the refresh
      succeeds (the signer that signed the login's pair signs the same claims again),
      and its access token is the logged-in user's. */
  lemma LoginThenRefresh(st: Login.Store, login: Login.LoginRequest, now: int, creds: Login.Credentials,
                         verify: Verifier, sign: Signer)
    requires FreshTokensVerify(sign, verify)
    requires login.verb != OPTIONS && login.rememberMe
    requires Login.HandleLogin(st, login, now, creds, sign).0.status == 200
    ensures var refreshToken := Login.HandleLogin(st, login, now, creds, sign).0.body.value.refreshToken;
      && refreshToken.Some?
      && var r := HandleRefresh(RefreshRequest("POST", refreshToken), verify, sign);
         r.status == 200
         && verify(r.body.value.token.value) == Decoded(login.username.value, Access)
  {
    var response := Login.HandleLogin(st, login, now, creds, sign).0;
    var username := login.username.value;
    var issued := sign(Claims(username, Refresh, REFRESH_TOKEN_EXPIRY));
    assert issued.Some? && response.body.value.refreshToken == issued;
    assert verify(issued.value) == Decoded(username, Refresh);
    Login.LoginIssuesTokens(st, login, now, creds, sign);
    var req := RefreshRequest("POST", response.body.value.refreshToken);
    assert HandleRefresh(req, verify, sign).status == 200;
    RefreshPreservesSubject(req, verify, sign);
  }
}
