/**
 * The refresh-token check that logout, refresh and check each open with: the token must verify under
 * the refresh secret, and then the `checkToken` hook must say it is stored. Each route answers its own
 * codes for an invalid and for an unknown token.
 */
module RefreshGate {
  import opened Wrappers
  import opened Senders
  import opened TokenUtils
  import opened AuthTypes
  import opened ExampleHost
  import opened Auth

  /** 403 with `invalidCode` for a token that does not verify, 500/5 or 404 with `unknownCode` for one that is not stored. */
  function StoredRefreshToken(c: Config, t: HookTables, s: Store, env: Foreign, token: Token, invalidCode: int, unknownCode: int): (step: Step)
    requires TablesValid(t)
    ensures step.Continue? ==> Verifies(token, c.refreshTokenSecret, env.now) && TokenRecord(token) in s.tokens
  {
    var decoded := DecodeToken(token, c.refreshTokenSecret, env.now);
    if !decoded.valid || decoded.payload.None? then Finished(SendAuthError(403, invalidCode), [])
    else
      var stored := RunCheckToken(t, s, token);
      if stored.serverError then Finished(SendAuthServerError(), [TokenCheck(token)])
      else if !stored.value then Finished(SendAuthError(404, unknownCode), [TokenCheck(token)])
      else Continue([TokenCheck(token)])
  }

  /** The token verifies under the refresh secret and `checkToken` reports, without error, that it is stored. */
  predicate Admits(c: Config, t: HookTables, s: Store, env: Foreign, token: Token)
    requires TablesValid(t)
  {
    Verifies(token, c.refreshTokenSecret, env.now) && !RunCheckToken(t, s, token).serverError && TokenRecord(token) in s.tokens
  }

  /** The handlers' form of the check: an early answer, or none and the token's payload. */
  method CheckRefreshToken(auth: AuthInstance, env: Foreign, token: Token, invalidCode: int, unknownCode: int)
    returns (answer: Option<Response<Data>>, payload: TokenPayload)
    requires auth.Valid()
    modifies auth`calls
    ensures var step := StoredRefreshToken(auth.config, auth.Tables(), auth.State(), env, token, invalidCode, unknownCode);
      && Answers(answer, step) && auth.calls == old(auth.calls) + step.calls
      && (answer.None? ==> token.Signed? && payload == TokenPayload(token.payload.id))
  {
    payload := TokenPayload("");
    var decoded := DecodeToken(token, auth.config.refreshTokenSecret, env.now);
    if !decoded.valid || decoded.payload.None? {
      return Some(SendAuthError(403, invalidCode)), payload;
    }
    payload := decoded.payload.value;
    var stored := auth.InvokeCheckToken(token);
    if stored.serverError {
      return Some(SendAuthServerError()), payload;
    }
    if !stored.value {
      return Some(SendAuthError(404, unknownCode)), payload;
    }
    answer := None;
  }

  /**
   * The check answers only its own two codes or 500/5, calls no hook at all for a token that does not
   * verify, and otherwise calls `checkToken` once, with the token.
   */
  lemma GateStage(c: Config, t: HookTables, s: Store, env: Foreign, token: Token, invalidCode: int, unknownCode: int)
    requires TablesValid(t)
    ensures var step := StoredRefreshToken(c, t, s, env, token, invalidCode, unknownCode);
      && (step.Finished? ==> (step.response.auth.code, step.response.status) in {(invalidCode, 403), (5, 500), (unknownCode, 404)}
                             && step.response.auth.error && step.response.auth.interceptCode == 0)
      && (!Verifies(token, c.refreshTokenSecret, env.now) <==> step == Finished(SendAuthError(403, invalidCode), []))
      && (Verifies(token, c.refreshTokenSecret, env.now) ==> step.calls == [TokenCheck(token)])
  {
  }

  /** A verifying token that `checkToken` answers for without error passes exactly when it is stored. */
  lemma GatePassesStoredTokens(c: Config, t: HookTables, s: Store, env: Foreign, token: Token, invalidCode: int, unknownCode: int)
    requires TablesValid(t) && Verifies(token, c.refreshTokenSecret, env.now) && !RunCheckToken(t, s, token).serverError
    ensures var step := StoredRefreshToken(c, t, s, env, token, invalidCode, unknownCode);
      && (step.Continue? <==> TokenRecord(token) in s.tokens)
      && (step.Finished? <==> step == Finished(SendAuthError(404, unknownCode), [TokenCheck(token)]))
  {
  }

  /**
   * For a verifying token, a `checkToken` error answers 500/5 after that one call, and the check passes
   * exactly when the token is admitted.
   */
  lemma GateCauses(c: Config, t: HookTables, s: Store, env: Foreign, token: Token, invalidCode: int, unknownCode: int)
    requires TablesValid(t)
    ensures var step := StoredRefreshToken(c, t, s, env, token, invalidCode, unknownCode);
      && (Verifies(token, c.refreshTokenSecret, env.now) && RunCheckToken(t, s, token).serverError ==>
            step == Finished(SendAuthServerError(), [TokenCheck(token)]))
      && (step.Continue? <==> Admits(c, t, s, env, token))
  {
  }
}
