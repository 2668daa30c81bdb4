/** The logout flow: revoke a stored refresh token. */
module LogoutRoute {
  import opened Wrappers
  import opened Senders
  import opened TokenUtils
  import opened AuthTypes
  import opened ExampleHost
  import opened Auth
  import opened RefreshGate

  /** The request body. */
  datatype LogoutBody = LogoutBody(refreshToken: Option<Token>)

  /** The whole flow: disabled route, missing token, the refresh-token check, then the revocation. */
  function LogoutFlow(c: Config, t: HookTables, s: Store, env: Foreign, body: LogoutBody): (o: Outcome)
    requires TablesValid(t)
  {
    if c.routes.logout == Disabled then Outcome(SendAuthError(403, 31), s, [])
    else if !Truthy(body.refreshToken) then Outcome(SendAuthError(400, 32), s, [])
    else
      var token := body.refreshToken.value;
      var gate := StoredRefreshToken(c, t, s, env, token, 33, 34);
      if gate.Finished? then Outcome(gate.response, s, gate.calls)
      else Prefixed(gate.calls, LogoutRevocation(t, s, token, TokenPayload(token.payload.id)))
  }

  /** The intercept's veto, then `deleteToken`. */
  function LogoutRevocation(t: HookTables, s: Store, token: Token, payload: TokenPayload): (o: Outcome)
    requires TablesValid(t)
  {
    var data := LogoutData(token, payload);
    var veto := RunIntercept(t, data);
    if veto.serverError then Outcome(SendAuthServerError(), s, [Interception(data)])
    else if veto.intercepted then Outcome(SendAuthError(403, 39, veto.interceptCode), s, [Interception(data)])
    else
      var deleted := RunDeleteToken(t, s, token);
      var calls := [Interception(data), TokenDeletion(token)];
      if deleted.result.serverError then Outcome(SendAuthServerError(), deleted.store, calls)
      else Outcome(SendAuthResponse(200, 10, None), deleted.store, calls)
  }

  /** The logout handler. */
  method Logout(auth: AuthInstance, env: Foreign, body: LogoutBody) returns (response: Response<Data>)
    requires auth.Valid()
    modifies auth`calls, auth.host.refreshTokens
    ensures var o := LogoutFlow(auth.config, auth.Tables(), old(auth.State()), env, body);
      response == o.response && auth.State() == o.store && auth.calls == old(auth.calls) + o.calls
  {
    if auth.config.routes.logout == Disabled {
      return SendAuthError(403, 31);
    }
    if !Truthy(body.refreshToken) {
      return SendAuthError(400, 32);
    }
    var token := body.refreshToken.value;
    ghost var gate := StoredRefreshToken(auth.config, auth.Tables(), auth.State(), env, token, 33, 34);
    var failed, payload := CheckRefreshToken(auth, env, token, 33, 34);
    if failed.Some? {
      return failed.value;
    }
    ghost var rest := LogoutRevocation(auth.Tables(), auth.State(), token, payload);
    response := RevokeToken(auth, token, payload);
    TraceAssociative(old(auth.calls), gate.calls, rest.calls);
  }

  /** The intercept and `deleteToken` of the handler. */
  method RevokeToken(auth: AuthInstance, token: Token, payload: TokenPayload) returns (response: Response<Data>)
    requires auth.Valid()
    modifies auth`calls, auth.host.refreshTokens
    ensures var o := LogoutRevocation(auth.Tables(), old(auth.State()), token, payload);
      response == o.response && auth.State() == o.store && auth.calls == old(auth.calls) + o.calls
  {
    var veto := auth.InvokeIntercept(LogoutData(token, payload));
    if veto.serverError {
      return SendAuthServerError();
    }
    if veto.intercepted {
      return SendAuthError(403, 39, veto.interceptCode);
    }
    var deleted := auth.InvokeDeleteToken(token);
    if deleted.serverError {
      return SendAuthServerError();
    }
    return SendAuthResponse(200, 10, None);
  }

  /**
   * A disabled route answers 403/31 and a missing token 400/32; a token that does not verify under
   * the refresh secret answers 403/33. None of these calls a hook.
   */
  lemma LogoutRejectsEarly(c: Config, t: HookTables, s: Store, env: Foreign, body: LogoutBody)
    requires TablesValid(t)
    ensures c.routes.logout == Disabled ==> LogoutFlow(c, t, s, env, body) == Outcome(SendAuthError(403, 31), s, [])
    ensures c.routes.logout != Disabled && !Truthy(body.refreshToken)
      ==> LogoutFlow(c, t, s, env, body) == Outcome(SendAuthError(400, 32), s, [])
    ensures c.routes.logout != Disabled && Truthy(body.refreshToken) && !Verifies(body.refreshToken.value, c.refreshTokenSecret, env.now)
      ==> LogoutFlow(c, t, s, env, body) == Outcome(SendAuthError(403, 33), s, [])
  {
    if c.routes.logout != Disabled && Truthy(body.refreshToken) {
      GateStage(c, t, s, env, body.refreshToken.value, 33, 34);
    }
  }

  /** The answers logout can give: each code with its status, and an error flag on everything but 10. */
  lemma LogoutAnswers(c: Config, t: HookTables, s: Store, env: Foreign, body: LogoutBody)
    requires TablesValid(t)
    ensures var r := LogoutFlow(c, t, s, env, body).response;
      && (r.auth.code, r.status) in {(5, 500), (10, 200), (31, 403), (32, 400), (33, 403), (34, 404), (39, 403)}
      && (r.auth.error <==> r.auth.code != 10)
      && (r.auth.code != 39 ==> r.auth.interceptCode == 0)
      && r.data.None?
  {
    if c.routes.logout != Disabled && Truthy(body.refreshToken) {
      GateStage(c, t, s, env, body.refreshToken.value, 33, 34);
    }
  }

  /**
   * A successful logout revoked a token that verifies and was stored: the intercept allowed it, the
   * last hook called was `deleteToken` with that token, and the store lost that token's first record.
   */
  lemma LogoutSuccess(c: Config, t: HookTables, s: Store, env: Foreign, body: LogoutBody)
    requires TablesValid(t)
    requires LogoutFlow(c, t, s, env, body).response.auth.code == 10
    ensures Truthy(body.refreshToken)
    ensures var token := body.refreshToken.value;
      var o := LogoutFlow(c, t, s, env, body);
      && Verifies(token, c.refreshTokenSecret, env.now) && TokenRecord(token) in s.tokens
      && o.calls == [TokenCheck(token), Interception(LogoutData(token, TokenPayload(token.payload.id))), TokenDeletion(token)]
      && !RunIntercept(t, LogoutData(token, TokenPayload(token.payload.id))).intercepted
      && o.store == WithoutToken(s, token)
      && exists i :: (0 <= i < |s.tokens| && s.tokens[i] == TokenRecord(token) && TokenRecord(token) !in s.tokens[..i]
                      && o.store.tokens == s.tokens[..i] + s.tokens[i + 1..])
  {
    var token := body.refreshToken.value;
    GateStage(c, t, s, env, token, 33, 34);
    WithoutStoredToken(s, token);
  }

  /** A vetoed logout answers 403/39 with the intercept's code and keeps the token: `deleteToken` never runs. */
  lemma LogoutVetoKeepsToken(c: Config, t: HookTables, s: Store, env: Foreign, body: LogoutBody)
    requires TablesValid(t)
    ensures var o := LogoutFlow(c, t, s, env, body);
      o.response.auth.code == 39 ==>
        && o.store == s && (forall i :: 0 <= i < |o.calls| ==> !o.calls[i].TokenDeletion?)
        && |o.calls| == 2 && o.calls[1].Interception? && o.calls[1].data.LogoutData?
        && RunIntercept(t, o.calls[1].data) == InterceptResult(false, true, o.response.auth.interceptCode)
  {
    if c.routes.logout != Disabled && Truthy(body.refreshToken) {
      GateStage(c, t, s, env, body.refreshToken.value, 33, 34);
    }
  }

  /** Whatever happens, the store either stays as it was or, on success only, loses one refresh token and no user. */
  lemma LogoutStoreEffect(c: Config, t: HookTables, s: Store, env: Foreign, body: LogoutBody)
    requires TablesValid(t)
    ensures var o := LogoutFlow(c, t, s, env, body);
      o.store == s || (o.response.auth.code == 10 && o.store.users == s.users && |o.store.tokens| == |s.tokens| - 1)
  {
    if c.routes.logout != Disabled && Truthy(body.refreshToken) {
      var token := body.refreshToken.value;
      GateStage(c, t, s, env, token, 33, 34);
      var o := LogoutFlow(c, t, s, env, body);
      if o.response.auth.code == 10 {
        WithoutStoredToken(s, token);
      }
    }
  }

  /**
   * For a verifying refresh token, a `checkToken` error answers 500/5 and a token that is not stored
   * 404/34, each after that one call and with the store unchanged.
   */
  lemma LogoutUnknownToken(c: Config, t: HookTables, s: Store, env: Foreign, body: LogoutBody)
    requires TablesValid(t)
    requires c.routes.logout != Disabled && Truthy(body.refreshToken)
    requires Verifies(body.refreshToken.value, c.refreshTokenSecret, env.now)
    ensures var token := body.refreshToken.value;
      var o := LogoutFlow(c, t, s, env, body);
      var stored := RunCheckToken(t, s, token);
      && (stored.serverError ==> o == Outcome(SendAuthServerError(), s, [TokenCheck(token)]))
      && (!stored.serverError && TokenRecord(token) !in s.tokens ==> o == Outcome(SendAuthError(404, 34), s, [TokenCheck(token)]))
  {
    GateCauses(c, t, s, env, body.refreshToken.value, 33, 34);
    if !RunCheckToken(t, s, body.refreshToken.value).serverError {
      GatePassesStoredTokens(c, t, s, env, body.refreshToken.value, 33, 34);
    }
  }

  /**
   * For an admitted refresh token, an intercept error answers 500/5 and a veto 403/39 with the
   * intercept's own code, both keeping the token; otherwise `deleteToken` runs, and the flow answers
   * 200/10 with the token revoked, or 500/5 with the store unchanged when `deleteToken` fails.
   */
  lemma LogoutRevocationCauses(c: Config, t: HookTables, s: Store, env: Foreign, body: LogoutBody)
    requires TablesValid(t)
    requires c.routes.logout != Disabled && Truthy(body.refreshToken)
    requires Admits(c, t, s, env, body.refreshToken.value)
    ensures var token := body.refreshToken.value;
      var o := LogoutFlow(c, t, s, env, body);
      var veto := RunIntercept(t, LogoutData(token, TokenPayload(token.payload.id)));
      var deleted := RunDeleteToken(t, s, token);
      && (veto.serverError ==> o.response == SendAuthServerError() && o.store == s)
      && (!veto.serverError && veto.intercepted ==> o.response == SendAuthError(403, 39, veto.interceptCode) && o.store == s)
      && (!veto.serverError && !veto.intercepted && deleted.result.serverError ==> o.response == SendAuthServerError() && o.store == s)
      && (!veto.serverError && !veto.intercepted && !deleted.result.serverError ==>
            o.response == SendAuthResponse(200, 10, None) && o.store == WithoutToken(s, token))
  {
    GateCauses(c, t, s, env, body.refreshToken.value, 33, 34);
  }
}
