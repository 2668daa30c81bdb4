/** The refresh flow: trade a stored refresh token for a new access token. */
module RefreshRoute {
  import opened Wrappers
  import opened Senders
  import opened TokenUtils
  import opened AuthTypes
  import opened ExampleHost
  import opened Auth
  import opened RefreshGate

  /** The request body. */
  datatype RefreshBody = RefreshBody(refreshToken: Option<Token>)

  /** The whole flow: disabled route, missing token, the refresh-token check, then the new access token. */
  function RefreshFlow(c: Config, t: HookTables, s: Store, env: Foreign, body: RefreshBody): (o: Outcome)
    requires TablesValid(t)
  {
    if c.routes.refresh == Disabled then Outcome(SendAuthError(403, 41), s, [])
    else if !Truthy(body.refreshToken) then Outcome(SendAuthError(400, 42), s, [])
    else
      var token := body.refreshToken.value;
      var gate := StoredRefreshToken(c, t, s, env, token, 43, 44);
      if gate.Finished? then Outcome(gate.response, s, gate.calls)
      else Prefixed(gate.calls, RefreshIssue(c, t, s, env, token, TokenPayload(token.payload.id)))
  }

  /** The intercept's veto, then an access token for the refresh token's user. */
  function RefreshIssue(c: Config, t: HookTables, s: Store, env: Foreign, token: Token, payload: TokenPayload): (o: Outcome)
    requires TablesValid(t)
  {
    var data := RefreshData(token, payload);
    var veto := RunIntercept(t, data);
    if veto.serverError then Outcome(SendAuthServerError(), s, [Interception(data)])
    else if veto.intercepted then Outcome(SendAuthError(403, 49, veto.interceptCode), s, [Interception(data)])
    else
      var accessToken := GenerateToken(TokenPayload(payload.id), c.accessTokenSecret, Some(c.expiresIn), env.now);
      Outcome(SendAuthResponse(201, 40, Some(AccessToken(accessToken))), s, [Interception(data)])
  }

  /** The refresh handler. */
  method Refresh(auth: AuthInstance, env: Foreign, body: RefreshBody) returns (response: Response<Data>)
    requires auth.Valid()
    modifies auth`calls
    ensures var o := RefreshFlow(auth.config, auth.Tables(), auth.State(), env, body);
      response == o.response && auth.calls == old(auth.calls) + o.calls
  {
    if auth.config.routes.refresh == Disabled {
      return SendAuthError(403, 41);
    }
    if !Truthy(body.refreshToken) {
      return SendAuthError(400, 42);
    }
    var token := body.refreshToken.value;
    ghost var gate := StoredRefreshToken(auth.config, auth.Tables(), auth.State(), env, token, 43, 44);
    var failed, payload := CheckRefreshToken(auth, env, token, 43, 44);
    if failed.Some? {
      return failed.value;
    }
    ghost var rest := RefreshIssue(auth.config, auth.Tables(), auth.State(), env, token, payload);
    var veto := auth.InvokeIntercept(RefreshData(token, payload));
    if veto.serverError {
      response := SendAuthServerError();
    } else if veto.intercepted {
      response := SendAuthError(403, 49, veto.interceptCode);
    } else {
      var accessToken := GenerateToken(TokenPayload(payload.id), auth.config.accessTokenSecret, Some(auth.config.expiresIn), env.now);
      response := SendAuthResponse(201, 40, Some(AccessToken(accessToken)));
    }
    TraceAssociative(old(auth.calls), gate.calls, rest.calls);
  }

  /** A disabled route answers 403/41, a missing token 400/42 and one that does not verify 403/43, all without a hook call. */
  lemma RefreshRejectsEarly(c: Config, t: HookTables, s: Store, env: Foreign, body: RefreshBody)
    requires TablesValid(t)
    ensures c.routes.refresh == Disabled ==> RefreshFlow(c, t, s, env, body) == Outcome(SendAuthError(403, 41), s, [])
    ensures c.routes.refresh != Disabled && !Truthy(body.refreshToken)
      ==> RefreshFlow(c, t, s, env, body) == Outcome(SendAuthError(400, 42), s, [])
    ensures c.routes.refresh != Disabled && Truthy(body.refreshToken) && !Verifies(body.refreshToken.value, c.refreshTokenSecret, env.now)
      ==> RefreshFlow(c, t, s, env, body) == Outcome(SendAuthError(403, 43), s, [])
  {
    if c.routes.refresh != Disabled && Truthy(body.refreshToken) {
      GateStage(c, t, s, env, body.refreshToken.value, 43, 44);
    }
  }

  /** The answers refresh can give, and that it never changes the store. */
  lemma RefreshAnswers(c: Config, t: HookTables, s: Store, env: Foreign, body: RefreshBody)
    requires TablesValid(t)
    ensures var o := RefreshFlow(c, t, s, env, body);
      var r := o.response;
      && (r.auth.code, r.status) in {(5, 500), (40, 201), (41, 403), (42, 400), (43, 403), (44, 404), (49, 403)}
      && (r.auth.error <==> r.auth.code != 40)
      && (r.auth.code != 49 ==> r.auth.interceptCode == 0)
      && (r.data.Some? <==> r.auth.code == 40)
      && o.store == s
      && Avoids(o.calls, StoreUser) && Avoids(o.calls, StoreToken) && Avoids(o.calls, DeleteToken)
  {
    if c.routes.refresh != Disabled && Truthy(body.refreshToken) {
      GateStage(c, t, s, env, body.refreshToken.value, 43, 44);
    }
  }

  /**
   * A successful refresh started from a refresh token that verifies and that `checkToken` reported
   * stored, was let through by the intercept, and hands out an
   * access token for the same user id that verifies under the access secret until it expires.
   */
  lemma RefreshSuccess(c: Config, t: HookTables, s: Store, env: Foreign, body: RefreshBody, later: int)
    requires TablesValid(t)
    requires RefreshFlow(c, t, s, env, body).response.auth.code == 40
    requires c.expiresIn == 0 || later < env.now + c.expiresIn
    ensures Truthy(body.refreshToken)
    ensures var token := body.refreshToken.value;
      var r := RefreshFlow(c, t, s, env, body).response;
      var veto := RunIntercept(t, RefreshData(token, TokenPayload(token.payload.id)));
      && Admits(c, t, s, env, token)
      && !veto.serverError && !veto.intercepted
      && r.status == 201 && r.data.Some? && r.data.value.AccessToken?
      && DecodeToken(r.data.value.accessToken, c.accessTokenSecret, later) == Decoded(true, Some(TokenPayload(token.payload.id)))
  {
    var token := body.refreshToken.value;
    GateStage(c, t, s, env, token, 43, 44);
    GateCauses(c, t, s, env, token, 43, 44);
    GenerateDecodeRoundTrip(TokenPayload(token.payload.id), c.accessTokenSecret, Some(c.expiresIn), env.now, later);
  }

  /**
   * For a verifying refresh token, a `checkToken` error answers 500/5 and a token that is not stored
   * 404/44, each after that one call.
   */
  lemma RefreshUnknownToken(c: Config, t: HookTables, s: Store, env: Foreign, body: RefreshBody)
    requires TablesValid(t)
    requires c.routes.refresh != Disabled && Truthy(body.refreshToken)
    requires Verifies(body.refreshToken.value, c.refreshTokenSecret, env.now)
    ensures var token := body.refreshToken.value;
      var o := RefreshFlow(c, t, s, env, body);
      var stored := RunCheckToken(t, s, token);
      && (stored.serverError ==> o == Outcome(SendAuthServerError(), s, [TokenCheck(token)]))
      && (!stored.serverError && TokenRecord(token) !in s.tokens ==> o == Outcome(SendAuthError(404, 44), s, [TokenCheck(token)]))
  {
    GateCauses(c, t, s, env, body.refreshToken.value, 43, 44);
    if !RunCheckToken(t, s, body.refreshToken.value).serverError {
      GatePassesStoredTokens(c, t, s, env, body.refreshToken.value, 43, 44);
    }
  }

  /**
   * For an admitted refresh token, an intercept error answers 500/5, a veto 403/49 with the intercept's
   * own code, and otherwise the flow answers 201/40 with a new access token for the token's user id.
   */
  lemma RefreshIssueCauses(c: Config, t: HookTables, s: Store, env: Foreign, body: RefreshBody)
    requires TablesValid(t)
    requires c.routes.refresh != Disabled && Truthy(body.refreshToken)
    requires Admits(c, t, s, env, body.refreshToken.value)
    ensures var token := body.refreshToken.value;
      var o := RefreshFlow(c, t, s, env, body);
      var veto := RunIntercept(t, RefreshData(token, TokenPayload(token.payload.id)));
      var accessToken := GenerateToken(TokenPayload(token.payload.id), c.accessTokenSecret, Some(c.expiresIn), env.now);
      && (veto.serverError ==> o.response == SendAuthServerError())
      && (!veto.serverError && veto.intercepted ==> o.response == SendAuthError(403, 49, veto.interceptCode))
      && (!veto.serverError && !veto.intercepted ==> o.response == SendAuthResponse(201, 40, Some(AccessToken(accessToken))))
  {
    GateCauses(c, t, s, env, body.refreshToken.value, 43, 44);
  }
}
