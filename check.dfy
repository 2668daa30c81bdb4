/** The check flow: confirm that a session's refresh token and access token are both still good. */
module CheckRoute {
  import opened Wrappers
  import opened Senders
  import opened TokenUtils
  import opened AuthTypes
  import opened ExampleHost
  import opened Auth
  import opened RefreshGate

  /** The request body. */
  datatype CheckBody = CheckBody(accessToken: Option<Token>, refreshToken: Option<Token>)

  /** The whole flow: disabled route, missing tokens, the refresh-token check, then the access token. */
  function CheckFlow(c: Config, t: HookTables, s: Store, env: Foreign, body: CheckBody): (o: Outcome)
    requires TablesValid(t)
  {
    if c.routes.check == Disabled then Outcome(SendAuthError(403, 51), s, [])
    else if !Truthy(body.accessToken) || !Truthy(body.refreshToken) then Outcome(SendAuthError(400, 52), s, [])
    else
      var refreshToken := body.refreshToken.value;
      var gate := StoredRefreshToken(c, t, s, env, refreshToken, 53, 54);
      if gate.Finished? then Outcome(gate.response, s, gate.calls)
      else Prefixed(gate.calls, CheckAccess(c, t, s, env, body.accessToken.value, refreshToken, TokenPayload(refreshToken.payload.id)))
  }

  /** The access token must verify; then the intercept's veto. */
  function CheckAccess(c: Config, t: HookTables, s: Store, env: Foreign, accessToken: Token, refreshToken: Token, payload: TokenPayload): (o: Outcome)
    requires TablesValid(t)
  {
    if !DecodeToken(accessToken, c.accessTokenSecret, env.now).valid then Outcome(SendAuthError(403, 55), s, [])
    else
      var data := CheckData(accessToken, refreshToken, payload);
      var veto := RunIntercept(t, data);
      if veto.serverError then Outcome(SendAuthServerError(), s, [Interception(data)])
      else if veto.intercepted then Outcome(SendAuthError(403, 59, veto.interceptCode), s, [Interception(data)])
      else Outcome(SendAuthResponse(200, 50, None), s, [Interception(data)])
  }

  /** The check handler. */
  method Check(auth: AuthInstance, env: Foreign, body: CheckBody) returns (response: Response<Data>)
    requires auth.Valid()
    modifies auth`calls
    ensures var o := CheckFlow(auth.config, auth.Tables(), auth.State(), env, body);
      response == o.response && auth.calls == old(auth.calls) + o.calls
  {
    if auth.config.routes.check == Disabled {
      return SendAuthError(403, 51);
    }
    if !Truthy(body.accessToken) || !Truthy(body.refreshToken) {
      return SendAuthError(400, 52);
    }
    var accessToken, refreshToken := body.accessToken.value, body.refreshToken.value;
    ghost var gate := StoredRefreshToken(auth.config, auth.Tables(), auth.State(), env, refreshToken, 53, 54);
    var failed, payload := CheckRefreshToken(auth, env, refreshToken, 53, 54);
    if failed.Some? {
      return failed.value;
    }
    ghost var rest := CheckAccess(auth.config, auth.Tables(), auth.State(), env, accessToken, refreshToken, payload);
    var decoded := DecodeToken(accessToken, auth.config.accessTokenSecret, env.now);
    if !decoded.valid {
      return SendAuthError(403, 55);
    }
    var veto := auth.InvokeIntercept(CheckData(accessToken, refreshToken, payload));
    if veto.serverError {
      response := SendAuthServerError();
    } else if veto.intercepted {
      response := SendAuthError(403, 59, veto.interceptCode);
    } else {
      response := SendAuthResponse(200, 50, None);
    }
    TraceAssociative(old(auth.calls), gate.calls, rest.calls);
  }

  /** A disabled route answers 403/51, a missing token 400/52 and a refresh token that does not verify 403/53, all without a hook call. */
  lemma CheckRejectsEarly(c: Config, t: HookTables, s: Store, env: Foreign, body: CheckBody)
    requires TablesValid(t)
    ensures c.routes.check == Disabled ==> CheckFlow(c, t, s, env, body) == Outcome(SendAuthError(403, 51), s, [])
    ensures c.routes.check != Disabled && !(Truthy(body.accessToken) && Truthy(body.refreshToken))
      ==> CheckFlow(c, t, s, env, body) == Outcome(SendAuthError(400, 52), s, [])
    ensures c.routes.check != Disabled && Truthy(body.accessToken) && Truthy(body.refreshToken)
        && !Verifies(body.refreshToken.value, c.refreshTokenSecret, env.now)
      ==> CheckFlow(c, t, s, env, body) == Outcome(SendAuthError(403, 53), s, [])
  {
    if c.routes.check != Disabled && Truthy(body.accessToken) && Truthy(body.refreshToken) {
      GateStage(c, t, s, env, body.refreshToken.value, 53, 54);
    }
  }

  /** The answers check can give, and that it never changes the store. */
  lemma CheckAnswers(c: Config, t: HookTables, s: Store, env: Foreign, body: CheckBody)
    requires TablesValid(t)
    ensures var o := CheckFlow(c, t, s, env, body);
      var r := o.response;
      && (r.auth.code, r.status) in {(5, 500), (50, 200), (51, 403), (52, 400), (53, 403), (54, 404), (55, 403), (59, 403)}
      && (r.auth.error <==> r.auth.code != 50)
      && (r.auth.code != 59 ==> r.auth.interceptCode == 0)
      && r.data.None?
      && o.store == s
      && Avoids(o.calls, StoreUser) && Avoids(o.calls, StoreToken) && Avoids(o.calls, DeleteToken)
  {
    if c.routes.check != Disabled && Truthy(body.accessToken) && Truthy(body.refreshToken) {
      GateStage(c, t, s, env, body.refreshToken.value, 53, 54);
    }
  }

  /**
   * The refresh token is looked up before the access token is verified: when `checkToken` reports no
   * error, a verifying refresh token that is not stored answers 404/54, whatever the access token is.
   */
  lemma UnknownSessionBeforeAccess(c: Config, t: HookTables, s: Store, env: Foreign, accessToken: Token, refreshToken: Token)
    requires TablesValid(t) && c.routes.check != Disabled
    requires Truthy(Some(accessToken)) && Truthy(Some(refreshToken))
    requires Verifies(refreshToken, c.refreshTokenSecret, env.now)
    requires !RunCheckToken(t, s, refreshToken).serverError && TokenRecord(refreshToken) !in s.tokens
    ensures CheckFlow(c, t, s, env, CheckBody(Some(accessToken), Some(refreshToken)))
      == Outcome(SendAuthError(404, 54), s, [TokenCheck(refreshToken)])
  {
    GatePassesStoredTokens(c, t, s, env, refreshToken, 53, 54);
  }

  /** A passing check saw a stored refresh token and an access token that both verify, and the intercept let it through. */
  lemma CheckSuccess(c: Config, t: HookTables, s: Store, env: Foreign, body: CheckBody)
    requires TablesValid(t)
    requires CheckFlow(c, t, s, env, body).response.auth.code == 50
    ensures Truthy(body.accessToken) && Truthy(body.refreshToken)
    ensures var refreshToken := body.refreshToken.value;
      && Verifies(refreshToken, c.refreshTokenSecret, env.now) && TokenRecord(refreshToken) in s.tokens
      && Verifies(body.accessToken.value, c.accessTokenSecret, env.now)
      && var veto := RunIntercept(t, CheckData(body.accessToken.value, refreshToken, TokenPayload(refreshToken.payload.id)));
         !veto.serverError && !veto.intercepted
  {
    GateStage(c, t, s, env, body.refreshToken.value, 53, 54);
  }

  /**
   * For an admitted refresh token, an access token that does not verify under the access secret answers
   * 403/55 after the `checkToken` call alone.
   */
  lemma CheckInvalidAccess(c: Config, t: HookTables, s: Store, env: Foreign, body: CheckBody)
    requires TablesValid(t)
    requires c.routes.check != Disabled && Truthy(body.accessToken) && Truthy(body.refreshToken)
    requires Admits(c, t, s, env, body.refreshToken.value)
    requires !Verifies(body.accessToken.value, c.accessTokenSecret, env.now)
    ensures CheckFlow(c, t, s, env, body) == Outcome(SendAuthError(403, 55), s, [TokenCheck(body.refreshToken.value)])
  {
    GateCauses(c, t, s, env, body.refreshToken.value, 53, 54);
  }

  /**
   * For an admitted refresh token and a verifying access token, an intercept error answers 500/5, a veto
   * 403/59 with the intercept's own code, and otherwise the check passes with 200/50.
   */
  lemma CheckAccessCauses(c: Config, t: HookTables, s: Store, env: Foreign, body: CheckBody)
    requires TablesValid(t)
    requires c.routes.check != Disabled && Truthy(body.accessToken) && Truthy(body.refreshToken)
    requires Admits(c, t, s, env, body.refreshToken.value)
    requires Verifies(body.accessToken.value, c.accessTokenSecret, env.now)
    ensures var refreshToken := body.refreshToken.value;
      var r := CheckFlow(c, t, s, env, body).response;
      var veto := RunIntercept(t, CheckData(body.accessToken.value, refreshToken, TokenPayload(refreshToken.payload.id)));
      && (veto.serverError ==> r == SendAuthServerError())
      && (!veto.serverError && veto.intercepted ==> r == SendAuthError(403, 59, veto.interceptCode))
      && (!veto.serverError && !veto.intercepted ==> r == SendAuthResponse(200, 50, None))
  {
    GateCauses(c, t, s, env, body.refreshToken.value, 53, 54);
  }
}
