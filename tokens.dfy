/** JSON Web Tokens as the core sees them. Signing and verifying (RFC 7519, done by
    the `jsonwebtoken` library) are oracles: `Signer` turns claims into a token or
    throws (`None`), `Verifier` turns a presented token into its decoded claims or
    the kind of error the library raises. */
module Tokens {
  import opened Wrappers

  /** Lifetimes in seconds: 30 minutes for an access token, 7 days for a refresh token. */
  const TOKEN_EXPIRY := 30 * 60
  const REFRESH_TOKEN_EXPIRY := 7 * 24 * 60 * 60

  const BEARER := "Bearer "

  /** The `type` claim. */
  datatype TokenKind = Access | Refresh

  /** The payload `{username, type}` and the `expiresIn` signing option. */
  datatype Claims = Claims(username: string, kind: TokenKind, expiresIn: int)

  datatype TokenPair = TokenPair(access: Claims, refresh: Claims)

  /** What `jwt.verify` does with a token: it decodes it, or it throws a
      `TokenExpiredError`, a `JsonWebTokenError` (bad format or signature), or
      another error (such as `NotBeforeError`). */
  datatype JwtOutcome = Decoded(username: string, kind: TokenKind) | Expired | Malformed | OtherError

  type Signer = Claims -> Option<string>
  type Verifier = string -> JwtOutcome

  /** The claims of the pair both handlers issue (`generateTokens` in the login
      and the refresh endpoint, which are identical). */
  function GenerateTokens(username: string): TokenPair {
    TokenPair(Claims(username, Access, TOKEN_EXPIRY), Claims(username, Refresh, REFRESH_TOKEN_EXPIRY))
  }

  /** An oracle pair in which a signed token is a non-empty string that verifies to
      its own claims (how the library behaves with one secret, before the token expires). */
  ghost predicate FreshTokensVerify(sign: Signer, verify: Verifier) {
    forall c :: sign(c).Some? ==> sign(c).value != "" && verify(sign(c).value) == Decoded(c.username, c.kind)
  }

  /** The token of an `Authorization` header: present only when the header is
      set and starts with `"Bearer "`, and then the header without those 7 characters. */
  function BearerToken(authorization: Option<string>): (t: Option<string>)
    ensures t.Some? <==> authorization.Some? && BEARER <= authorization.value
    ensures t.Some? ==> authorization.value == BEARER + t.value
  {
    if authorization.Some? && authorization.value != "" && BEARER <= authorization.value
    then Some(authorization.value[|BEARER|..])
    else None
  }

  /** The header a client builds from a token yields that token again. */
  lemma BearerRoundTrip(token: string)
    ensures BearerToken(Some(BEARER + token)) == Some(token)
  {
    assert BEARER <= BEARER + token;
  }
}
