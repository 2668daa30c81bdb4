/**
 * Access and refresh tokens over an abstract signer, the access-token guard, and the guard's
 * middleware form.
 *
 * A signed token is modelled by what signing puts into it: the payload, the secret it was signed
 * with, the time of issue, and the expiry time when one was requested. Anything else a client sends
 * is `Raw` text, which never verifies; `Raw("")` is the empty string.
 */
module TokenUtils {
  import opened Wrappers
  import opened Senders

  /** What a token carries: the user id only. */
  datatype TokenPayload = TokenPayload(id: string)

  datatype Token =
    | Signed(payload: TokenPayload, secret: string, issuedAt: int, expiresAt: Option<int>)
    | Raw(text: string)

  /** A request value that is present and not the empty string. */
  predicate Truthy(token: Option<Token>) {
    token.Some? && token.value != Raw("")
  }

  /** A number that is present and non-zero. */
  predicate NumberTruthy(n: Option<int>) {
    n.Some? && n.value != 0
  }

  /** Signs `payload` with `secret` at time `now`; an expiry is attached only for a truthy `expiresIn`. */
  function GenerateToken(payload: TokenPayload, secret: string, expiresIn: Option<int>, now: int): (t: Token)
    ensures t.Signed? && t.payload == payload && t.secret == secret && t.issuedAt == now
    ensures t.expiresAt.Some? <==> NumberTruthy(expiresIn)
    ensures t.expiresAt.Some? ==> t.expiresAt.value == now + expiresIn.value
  {
    Signed(payload, secret, now, if NumberTruthy(expiresIn) then Some(now + expiresIn.value) else None)
  }

  /** Verification succeeds for a token signed with this secret that has not reached its expiry. */
  predicate Verifies(token: Token, secret: string, now: int) {
    token.Signed? && token.secret == secret && (token.expiresAt.None? || now < token.expiresAt.value)
  }

  datatype Decoded = Decoded(valid: bool, payload: Option<TokenPayload>)

  /** Verifies a token and keeps only the id of its payload; a failed verification is reported, never raised. */
  function DecodeToken(token: Token, secret: string, now: int): (d: Decoded)
    ensures d.valid <==> d.payload.Some?
    ensures d.valid <==> Verifies(token, secret, now)
    ensures d.valid ==> d.payload.value == TokenPayload(token.payload.id)
  {
    if Verifies(token, secret, now) then Decoded(true, Some(TokenPayload(token.payload.id)))
    else Decoded(false, None)
  }

  /** A freshly generated token decodes, with the same secret and before any expiry, to its own payload. */
  lemma GenerateDecodeRoundTrip(payload: TokenPayload, secret: string, expiresIn: Option<int>, now: int, later: int)
    requires !NumberTruthy(expiresIn) || later < now + expiresIn.value
    ensures DecodeToken(GenerateToken(payload, secret, expiresIn, now), secret, later) == Decoded(true, Some(payload))
  {
  }

  /** A token never decodes under a secret other than the one it was signed with. */
  lemma WrongSecretRejected(payload: TokenPayload, secret: string, other: string, expiresIn: Option<int>, now: int, later: int)
    requires other != secret
    ensures DecodeToken(GenerateToken(payload, secret, expiresIn, now), other, later) == Decoded(false, None)
  {
  }

  /** Without a truthy `expiresIn` (absent or 0) a token stays valid at every later time. */
  lemma FalsyExpiryNeverExpires(payload: TokenPayload, secret: string, expiresIn: Option<int>, now: int, later: int)
    requires expiresIn.None? || expiresIn.value == 0
    ensures DecodeToken(GenerateToken(payload, secret, expiresIn, now), secret, later).valid
  {
  }

  /** A token with a positive lifetime is rejected from its expiry time on. */
  lemma ExpiredRejected(payload: TokenPayload, secret: string, expiresIn: int, now: int, later: int)
    requires expiresIn != 0 && later >= now + expiresIn
    ensures !DecodeToken(GenerateToken(payload, secret, Some(expiresIn), now), secret, later).valid
  {
  }

  /** The guard's verdict on an access token. */
  datatype Guard = Guard(tokenError: bool, code: int, payload: Option<TokenPayload>)

  /** The access-token guard: code 1 for a missing token, 2 for one that fails verification, 0 otherwise. */
  function ValidateAccessToken(accessTokenSecret: string, accessToken: Option<Token>, now: int): (g: Guard)
    ensures !Truthy(accessToken) ==> g == Guard(true, 1, None)
    ensures Truthy(accessToken) && !Verifies(accessToken.value, accessTokenSecret, now) ==> g == Guard(true, 2, None)
    ensures Truthy(accessToken) && Verifies(accessToken.value, accessTokenSecret, now)
      ==> g == Guard(false, 0, Some(TokenPayload(accessToken.value.payload.id)))
  {
    if !Truthy(accessToken) then Guard(true, 1, None)
    else
      var d := DecodeToken(accessToken.value, accessTokenSecret, now);
      if !d.valid || d.payload.None? then Guard(true, 2, None)
      else Guard(false, 0, d.payload)
  }

  /** The guard reports an error exactly when it carries no payload, and only with code 1 or 2. */
  lemma GuardShape(accessTokenSecret: string, accessToken: Option<Token>, now: int)
    ensures var g := ValidateAccessToken(accessTokenSecret, accessToken, now);
      (g.tokenError <==> g.payload.None?) && (g.tokenError <==> g.code != 0) && g.code in {0, 1, 2}
  {
  }

  /**
   * The token of an authorization header, given as its space-separated words: the second word. A
   * missing header, or one with fewer than two words, gives no token.
   */
  function HeaderToken(header: Option<seq<Token>>): (t: Option<Token>)
    ensures t.Some? <==> header.Some? && |header.value| >= 2
    ensures t.Some? ==> t.value == header.value[1]
  {
    if header.Some? && |header.value| >= 2 then Some(header.value[1]) else None
  }

  /** What the middleware does with a request: answer it, or store the payload and pass it on. */
  datatype Verdict = Rejected(response: Response<()>) | Passed(payload: TokenPayload)

  /** The middleware: 400 for a missing token, 403 for an invalid one, otherwise on to the next handler. */
  function AccessTokenMiddleware(accessTokenSecret: string, header: Option<seq<Token>>, now: int): (v: Verdict)
    ensures var g := ValidateAccessToken(accessTokenSecret, HeaderToken(header), now);
      && (g.code == 1 <==> v == Rejected(SendAuthError(400, 1)))
      && (g.code == 2 <==> v == Rejected(SendAuthError(403, 2)))
      && (g.code == 0 <==> v.Passed? && g.payload == Some(v.payload))
  {
    var g := ValidateAccessToken(accessTokenSecret, HeaderToken(header), now);
    if g.tokenError && g.code == 1 then Rejected(SendAuthError(400, g.code))
    else if g.tokenError && g.code == 2 then Rejected(SendAuthError(403, g.code))
    else Passed(g.payload.value)
  }

  /** A request whose header is `Bearer <token>` with a good access token passes with that token's id. */
  lemma BearerTokenPasses(accessTokenSecret: string, scheme: Token, token: Token, now: int)
    requires Verifies(token, accessTokenSecret, now)
    ensures AccessTokenMiddleware(accessTokenSecret, Some([scheme, token]), now) == Passed(TokenPayload(token.payload.id))
  {
  }
}
