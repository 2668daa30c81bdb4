/** The login flow: check a login and a password, then issue a refresh token and an access token. */
module LoginRoute {
  import opened Wrappers
  import opened Senders
  import opened TokenUtils
  import opened AuthTypes
  import opened ExampleHost
  import opened Auth
  import opened CombinedLookup

  /** The request body; `login` is an e-mail address or a username. */
  datatype LoginBody = LoginBody(login: Option<string>, password: Option<string>)

  /** The whole flow: disabled route, missing fields, identification, then the tokens. */
  function LoginFlow(c: Config, t: HookTables, s: Store, env: Foreign, body: LoginBody): (o: Outcome)
    requires TablesValid(t)
  {
    if c.routes.login == Disabled then Outcome(SendAuthError(403, 21), s, [])
    else if !Present(body.login) || !Present(body.password) then Outcome(SendAuthError(400, 22), s, [])
    else
      var identify := LoginIdentification(c, t, s, env, body.login.value, body.password.value);
      if identify.Finished? then Outcome(identify.response, s, identify.calls)
      else Prefixed(identify.calls, LoginIssue(c, t, s, env, LookupByLogin(t, s, body.login.value).result.value.value))
  }

  /**
   * The user must exist and the password must match its hash. A sensitive API answers 25 for both
   * failures, so a client cannot tell which one happened. Passing on means a user was found.
   */
  function LoginIdentification(c: Config, t: HookTables, s: Store, env: Foreign, login: string, password: string): (step: Step)
    requires TablesValid(t)
    ensures step.Continue? ==> !LookupByLogin(t, s, login).result.serverError && LookupByLogin(t, s, login).result.value.Some?
  {
    var lookup := LookupByLogin(t, s, login);
    if lookup.result.serverError then Finished(lookup.sent.value, lookup.calls)
    else if lookup.result.value.None? then Finished(SendAuthError(403, if c.sensitiveApi then 25 else 23), lookup.calls)
    else
      var user := lookup.result.value.value;
      var matches := RunCheckPassword(t, env, password, user.hashedPassword);
      var calls := lookup.calls + [PasswordCheck(password, user.hashedPassword)];
      if matches.serverError then Finished(SendAuthServerError(), calls)
      else if !matches.value then Finished(SendAuthError(403, if c.sensitiveApi then 25 else 24), calls)
      else Continue(calls)
  }

  /** The refresh token a login of `user` hands out: it never expires. */
  function RefreshTokenFor(c: Config, env: Foreign, user: User): Token {
    GenerateToken(TokenPayload(user.id), c.refreshTokenSecret, None, env.now)
  }

  /** The access token a login of `user` hands out: it expires `expiresIn` seconds after issue. */
  function AccessTokenFor(c: Config, env: Foreign, user: User): Token {
    GenerateToken(TokenPayload(user.id), c.accessTokenSecret, Some(c.expiresIn), env.now)
  }

  /** What a login of `user` shows the intercept: the user, both tokens and their payload. */
  function LoginDataFor(c: Config, env: Foreign, user: User): InterceptData {
    LoginData(user, AccessTokenFor(c, env, user), RefreshTokenFor(c, env, user), TokenPayload(user.id))
  }

  /** The refresh token never expires; the access token lives `expiresIn` seconds (forever when that is 0). */
  function LoginIssue(c: Config, t: HookTables, s: Store, env: Foreign, user: User): (o: Outcome)
    requires TablesValid(t)
  {
    var payload := TokenPayload(user.id);
    var refreshToken := GenerateToken(payload, c.refreshTokenSecret, None, env.now);
    var accessToken := GenerateToken(payload, c.accessTokenSecret, Some(c.expiresIn), env.now);
    var data := LoginData(user, accessToken, refreshToken, payload);
    var veto := RunIntercept(t, data);
    if veto.serverError then Outcome(SendAuthServerError(), s, [Interception(data)])
    else if veto.intercepted then Outcome(SendAuthError(403, 29, veto.interceptCode), s, [Interception(data)])
    else
      var stored := RunStoreToken(t, s, refreshToken);
      var calls := [Interception(data), TokenStore(refreshToken)];
      if stored.result.serverError then Outcome(SendAuthServerError(), stored.store, calls)
      else Outcome(SendAuthResponse(201, 20, Some(TokenPair(accessToken, refreshToken))), stored.store, calls)
  }

  /** The login handler. */
  method Login(auth: AuthInstance, env: Foreign, body: LoginBody) returns (response: Response<Data>)
    requires auth.Valid()
    modifies auth`calls, auth.host.refreshTokens
    ensures var o := LoginFlow(auth.config, auth.Tables(), old(auth.State()), env, body);
      response == o.response && auth.State() == o.store && auth.calls == old(auth.calls) + o.calls
  {
    if auth.config.routes.login == Disabled {
      return SendAuthError(403, 21);
    }
    if !Present(body.login) || !Present(body.password) {
      return SendAuthError(400, 22);
    }
    ghost var s, t := auth.State(), auth.Tables();
    ghost var identify := LoginIdentification(auth.config, t, s, env, body.login.value, body.password.value);
    var failed, user := IdentifyUser(auth, env, body.login.value, body.password.value);
    if failed.Some? {
      return failed.value;
    }
    ghost var rest := LoginIssue(auth.config, t, s, env, user);
    response := IssueTokens(auth, env, user);
    TraceAssociative(old(auth.calls), identify.calls, rest.calls);
  }

  /** The lookup and the password check of the handler: an early answer, or the user it found. */
  method IdentifyUser(auth: AuthInstance, env: Foreign, login: string, password: string)
    returns (answer: Option<Response<Data>>, user: User)
    requires auth.Valid()
    modifies auth`calls
    ensures var step := LoginIdentification(auth.config, auth.Tables(), auth.State(), env, login, password);
      && Answers(answer, step) && auth.calls == old(auth.calls) + step.calls
      && (answer.None? ==> LookupByLogin(auth.Tables(), auth.State(), login).result.value == Some(user))
  {
    user := User("", "", "", "");
    var found, sent := GetUserByLogin(auth, login);
    if found.serverError {
      return sent, user;
    }
    if found.value.None? {
      return Some(SendAuthError(403, if auth.config.sensitiveApi then 25 else 23)), user;
    }
    user := found.value.value;
    var matches := auth.InvokeCheckPassword(env, password, user.hashedPassword);
    if matches.serverError {
      return Some(SendAuthServerError()), user;
    }
    if !matches.value {
      return Some(SendAuthError(403, if auth.config.sensitiveApi then 25 else 24)), user;
    }
    answer := None;
  }

  /** Token generation, the intercept and `storeToken`. */
  method IssueTokens(auth: AuthInstance, env: Foreign, user: User) returns (response: Response<Data>)
    requires auth.Valid()
    modifies auth`calls, auth.host.refreshTokens
    ensures var o := LoginIssue(auth.config, auth.Tables(), old(auth.State()), env, user);
      response == o.response && auth.State() == o.store && auth.calls == old(auth.calls) + o.calls
  {
    var payload := TokenPayload(user.id);
    var refreshToken := GenerateToken(payload, auth.config.refreshTokenSecret, None, env.now);
    var accessToken := GenerateToken(payload, auth.config.accessTokenSecret, Some(auth.config.expiresIn), env.now);
    var veto := auth.InvokeIntercept(LoginData(user, accessToken, refreshToken, payload));
    if veto.serverError {
      return SendAuthServerError();
    }
    if veto.intercepted {
      return SendAuthError(403, 29, veto.interceptCode);
    }
    var stored := auth.InvokeStoreToken(refreshToken);
    if stored.serverError {
      return SendAuthServerError();
    }
    return SendAuthResponse(201, 20, Some(TokenPair(accessToken, refreshToken)));
  }

  /**
   * Identification answers 500/5 or 403 with 23 (no such user), 24 (wrong password) or 25 (either, on a
   * sensitive API).
   */
  lemma IdentificationStage(c: Config, t: HookTables, s: Store, env: Foreign, login: string, password: string)
    requires TablesValid(t)
    ensures var step := LoginIdentification(c, t, s, env, login, password);
      && (step.Finished? ==> (step.response.auth.code, step.response.status) in {(5, 500), (23, 403), (24, 403), (25, 403)}
                             && step.response.auth.error && step.response.auth.interceptCode == 0)
      && (step.Finished? && step.response.auth.code in {23, 24, 25} ==> (step.response.auth.code == 25 <==> c.sensitiveApi))
  {
  }

  /** Identification only looks the user up and checks the password: it never calls `storeToken`. */
  lemma IdentificationCalls(c: Config, t: HookTables, s: Store, env: Foreign, login: string, password: string)
    requires TablesValid(t)
    ensures Avoids(LoginIdentification(c, t, s, env, login, password).calls, StoreToken)
  {
    var lookup := LookupByLogin(t, s, login);
    var calls := LoginIdentification(c, t, s, env, login, password).calls;
    if !lookup.result.serverError && lookup.result.value.Some? {
      var user := lookup.result.value.value;
      assert calls == lookup.calls || calls == lookup.calls + [PasswordCheck(password, user.hashedPassword)];
    }
  }

  /**
   * Passing identification means the lookup found a user and `checkPassword` (called last) accepted the
   * password against that user's hash.
   */
  lemma IdentificationPassed(c: Config, t: HookTables, s: Store, env: Foreign, login: string, password: string)
    requires TablesValid(t) && LoginIdentification(c, t, s, env, login, password).Continue?
    ensures var user := LookupByLogin(t, s, login).result.value.value;
      var calls := LoginIdentification(c, t, s, env, login, password).calls;
      && RunCheckPassword(t, env, password, user.hashedPassword) == Returned(false, true)
      && |calls| > 0 && calls[|calls| - 1] == PasswordCheck(password, user.hashedPassword)
  {
    var lookup := LookupByLogin(t, s, login);
    LastCallAfter(lookup.calls, [PasswordCheck(password, lookup.result.value.value.hashedPassword)]);
  }

  /**
   * Issuing answers 500/5, 403/29 with the intercept's own code, or 201/20 with the token pair. Only
   * 201/20 changes the store, by adding exactly the refresh token handed out.
   */
  lemma IssueStage(c: Config, t: HookTables, s: Store, env: Foreign, user: User)
    requires TablesValid(t)
    ensures var o := LoginIssue(c, t, s, env, user);
      var r := o.response;
      var refreshToken := GenerateToken(TokenPayload(user.id), c.refreshTokenSecret, None, env.now);
      var accessToken := GenerateToken(TokenPayload(user.id), c.accessTokenSecret, Some(c.expiresIn), env.now);
      && (r.auth.code, r.status) in {(5, 500), (20, 201), (29, 403)}
      && (r.auth.error <==> r.auth.code != 20)
      && (r.auth.code != 29 ==> r.auth.interceptCode == 0)
      && (r.auth.code == 20 ==> r.data == Some(TokenPair(accessToken, refreshToken)) && o.store == WithToken(s, refreshToken))
      && (r.auth.code != 20 ==> o.store == s)
  {
  }

  /**
   * Issuing first shows the intercept the user, both tokens and the payload. A veto (403/29) stops there,
   * so `storeToken` never runs; a success ends with the call that stored the refresh token.
   */
  lemma IssueCalls(c: Config, t: HookTables, s: Store, env: Foreign, user: User)
    requires TablesValid(t)
    ensures var o := LoginIssue(c, t, s, env, user);
      var r := o.response;
      var refreshToken := GenerateToken(TokenPayload(user.id), c.refreshTokenSecret, None, env.now);
      var accessToken := GenerateToken(TokenPayload(user.id), c.accessTokenSecret, Some(c.expiresIn), env.now);
      var data := LoginData(user, accessToken, refreshToken, TokenPayload(user.id));
      && |o.calls| > 0 && o.calls[0] == Interception(data)
      && (r.auth.code == 29 ==> o.calls == [Interception(data)] && RunIntercept(t, data) == InterceptResult(false, true, r.auth.interceptCode))
      && (r.auth.code == 20 ==> o.calls == [Interception(data), TokenStore(refreshToken)])
  {
  }

  /**
   * What decides identification: a lookup that finds nobody answers 403/23, a password `checkPassword`
   * rejects 403/24 (25 for both on a sensitive API), a hook error 500/5, and the stage passes exactly
   * when a user was found and `checkPassword` accepted the password against its hash.
   */
  lemma IdentificationCauses(c: Config, t: HookTables, s: Store, env: Foreign, login: string, password: string)
    requires TablesValid(t)
    ensures var step := LoginIdentification(c, t, s, env, login, password);
      var found := LookupByLogin(t, s, login).result;
      && (found.serverError ==> step.Finished? && step.response == SendAuthServerError())
      && (Unclaimed(t, s, login) ==>
            step == Finished(SendAuthError(403, if c.sensitiveApi then 25 else 23), LookupByLogin(t, s, login).calls))
      && (!found.serverError && found.value.Some? ==>
            var matches := RunCheckPassword(t, env, password, found.value.value.hashedPassword);
            && (matches.serverError ==> step.Finished? && step.response == SendAuthServerError())
            && (matches == Returned(false, false) ==>
                  step.Finished? && step.response == SendAuthError(403, if c.sensitiveApi then 25 else 24))
            && (step.Continue? <==> matches == Returned(false, true)))
  {
  }

  /**
   * What decides issuing: an intercept error answers 500/5 and a veto 403/29 with its own code, both
   * before `storeToken`; a `storeToken` error answers 500/5; none of them changes the store, and issuing
   * succeeds exactly when the intercept let the login through and `storeToken` reported no error.
   */
  lemma IssueCauses(c: Config, t: HookTables, s: Store, env: Foreign, user: User)
    requires TablesValid(t)
    ensures var o := LoginIssue(c, t, s, env, user);
      var veto := RunIntercept(t, LoginDataFor(c, env, user));
      var stored := RunStoreToken(t, s, RefreshTokenFor(c, env, user));
      && (veto.serverError ==> o.response == SendAuthServerError() && o.store == s)
      && (!veto.serverError && veto.intercepted ==>
            o.response == SendAuthError(403, 29, veto.interceptCode) && o.store == s && Avoids(o.calls, StoreToken))
      && (!veto.serverError && !veto.intercepted && stored.result.serverError ==>
            o.response == SendAuthServerError() && o.store == s)
      && (o.response.auth.code == 20 <==> !veto.serverError && !veto.intercepted && !stored.result.serverError)
  {
  }

  /** A disabled route answers 403/21, and a missing login or password 400/22, before any hook runs. */
  lemma LoginRejectsEarly(c: Config, t: HookTables, s: Store, env: Foreign, body: LoginBody)
    requires TablesValid(t)
    ensures c.routes.login == Disabled ==> LoginFlow(c, t, s, env, body) == Outcome(SendAuthError(403, 21), s, [])
    ensures c.routes.login != Disabled && !(Present(body.login) && Present(body.password))
      ==> LoginFlow(c, t, s, env, body) == Outcome(SendAuthError(400, 22), s, [])
  {
  }

  /** The answers login can give: each code with its status, and an error flag on everything but 20. */
  lemma LoginAnswers(c: Config, t: HookTables, s: Store, env: Foreign, body: LoginBody)
    requires TablesValid(t)
    ensures var r := LoginFlow(c, t, s, env, body).response;
      && (r.auth.code, r.status) in {(5, 500), (20, 201), (21, 403), (22, 400), (23, 403), (24, 403), (25, 403), (29, 403)}
      && (r.auth.error <==> r.auth.code != 20)
      && (r.auth.code != 29 ==> r.auth.interceptCode == 0)
  {
    if c.routes.login != Disabled && Present(body.login) && Present(body.password) {
      var login := body.login.value;
      IdentificationStage(c, t, s, env, login, body.password.value);
      if LoginIdentification(c, t, s, env, login, body.password.value).Continue? {
        IssueStage(c, t, s, env, LookupByLogin(t, s, login).result.value.value);
      }
    }
  }

  /**
   * A sensitive API never tells an unknown user from a wrong password: both answer 403/25. Otherwise
   * they answer 23 and 24, and 25 never occurs.
   */
  lemma LoginHidesFailureCause(c: Config, t: HookTables, s: Store, env: Foreign, body: LoginBody)
    requires TablesValid(t)
    ensures var code := LoginFlow(c, t, s, env, body).response.auth.code;
      code in {23, 24, 25} ==> (code == 25 <==> c.sensitiveApi)
  {
    if c.routes.login != Disabled && Present(body.login) && Present(body.password) {
      var login := body.login.value;
      IdentificationStage(c, t, s, env, login, body.password.value);
      if LoginIdentification(c, t, s, env, login, body.password.value).Continue? {
        IssueStage(c, t, s, env, LookupByLogin(t, s, login).result.value.value);
      }
    }
  }

  /**
   * A successful login found the user by its login, had its password accepted, was let through by the
   * intercept, stored exactly the refresh token it hands out, and hands out tokens that carry the user's id: the refresh token
   * verifies under the refresh secret at every later time, the access token under the access secret
   * at every later time before it expires (always, when `expiresIn` is 0).
   */
  lemma LoginSuccess(c: Config, t: HookTables, s: Store, env: Foreign, body: LoginBody, later: int)
    requires TablesValid(t)
    requires LoginFlow(c, t, s, env, body).response.auth.code == 20
    ensures Present(body.login) && Present(body.password)
    ensures LookupByLogin(t, s, body.login.value).result.value.Some?
    ensures var o := LoginFlow(c, t, s, env, body);
      var user := LookupByLogin(t, s, body.login.value).result.value.value;
      var veto := RunIntercept(t, LoginDataFor(c, env, user));
      && RunCheckPassword(t, env, body.password.value, user.hashedPassword) == Returned(false, true)
      && !veto.serverError && !veto.intercepted
      && o.response.status == 201 && o.response.data == Some(TokenPair(AccessTokenFor(c, env, user), RefreshTokenFor(c, env, user)))
      && o.store == WithToken(s, o.response.data.value.refreshToken)
      && DecodeToken(o.response.data.value.refreshToken, c.refreshTokenSecret, later) == Decoded(true, Some(TokenPayload(user.id)))
      && (c.expiresIn == 0 || later < env.now + c.expiresIn ==>
          DecodeToken(o.response.data.value.accessToken, c.accessTokenSecret, later) == Decoded(true, Some(TokenPayload(user.id))))
  {
    var login, password := body.login.value, body.password.value;
    IdentificationStage(c, t, s, env, login, password);
    IdentificationPassed(c, t, s, env, login, password);
    var user := LookupByLogin(t, s, login).result.value.value;
    IssueStage(c, t, s, env, user);
    IssueCauses(c, t, s, env, user);
    GenerateDecodeRoundTrip(TokenPayload(user.id), c.refreshTokenSecret, None, env.now, later);
    if c.expiresIn == 0 || later < env.now + c.expiresIn {
      GenerateDecodeRoundTrip(TokenPayload(user.id), c.accessTokenSecret, Some(c.expiresIn), env.now, later);
    }
  }

  /** Whatever happens, the store either stays as it was or, on success only, gains exactly one refresh token. */
  lemma LoginStoreEffect(c: Config, t: HookTables, s: Store, env: Foreign, body: LoginBody)
    requires TablesValid(t)
    ensures var o := LoginFlow(c, t, s, env, body);
      o.store == s || (o.response.auth.code == 20 && o.store.users == s.users && |o.store.tokens| == |s.tokens| + 1)
  {
    if c.routes.login != Disabled && Present(body.login) && Present(body.password) {
      var login := body.login.value;
      IdentificationStage(c, t, s, env, login, body.password.value);
      if LoginIdentification(c, t, s, env, login, body.password.value).Continue? {
        IssueStage(c, t, s, env, LookupByLogin(t, s, login).result.value.value);
      }
    }
  }

  /** A vetoed login leaves the store as it was: `storeToken` never runs. */
  lemma LoginVetoStoresNothing(c: Config, t: HookTables, s: Store, env: Foreign, body: LoginBody)
    requires TablesValid(t)
    ensures var o := LoginFlow(c, t, s, env, body);
      o.response.auth.code == 29 ==> o.store == s && Avoids(o.calls, StoreToken)
  {
    if c.routes.login != Disabled && Present(body.login) && Present(body.password) {
      var login, password := body.login.value, body.password.value;
      var identify := LoginIdentification(c, t, s, env, login, password);
      IdentificationStage(c, t, s, env, login, password);
      IdentificationCalls(c, t, s, env, login, password);
      if identify.Continue? {
        var user := LookupByLogin(t, s, login).result.value.value;
        IssueStage(c, t, s, env, user);
        IssueCalls(c, t, s, env, user);
        AvoidsConcat(identify.calls, LoginIssue(c, t, s, env, user).calls, StoreToken);
      }
    }
  }

  /** A vetoed login answers 403/29 with the intercept's own code, and the intercept was the last hook called. */
  lemma LoginVetoIsLastCall(c: Config, t: HookTables, s: Store, env: Foreign, body: LoginBody)
    requires TablesValid(t)
    ensures var o := LoginFlow(c, t, s, env, body);
      o.response.auth.code == 29 ==>
        && |o.calls| > 0 && o.calls[|o.calls| - 1].Interception? && o.calls[|o.calls| - 1].data.LoginData?
        && RunIntercept(t, o.calls[|o.calls| - 1].data) == InterceptResult(false, true, o.response.auth.interceptCode)
  {
    if c.routes.login != Disabled && Present(body.login) && Present(body.password) {
      var login, password := body.login.value, body.password.value;
      var identify := LoginIdentification(c, t, s, env, login, password);
      IdentificationStage(c, t, s, env, login, password);
      if identify.Continue? {
        var user := LookupByLogin(t, s, login).result.value.value;
        var rest := LoginIssue(c, t, s, env, user);
        IssueStage(c, t, s, env, user);
        IssueCalls(c, t, s, env, user);
        LastCallAfter(identify.calls, rest.calls);
      }
    }
  }

  /** A login that names nobody answers 403/23 (25 on a sensitive API) after the lookups alone, storing nothing. */
  lemma LoginUnknownUser(c: Config, t: HookTables, s: Store, env: Foreign, body: LoginBody)
    requires TablesValid(t)
    requires c.routes.login != Disabled && Present(body.login) && Present(body.password)
    requires Unclaimed(t, s, body.login.value)
    ensures LoginFlow(c, t, s, env, body)
      == Outcome(SendAuthError(403, if c.sensitiveApi then 25 else 23), s, LookupByLogin(t, s, body.login.value).calls)
  {
    IdentificationCauses(c, t, s, env, body.login.value, body.password.value);
  }

  /** A password `checkPassword` rejects for the user found answers 403/24 (25 on a sensitive API); no token is stored. */
  lemma LoginWrongPassword(c: Config, t: HookTables, s: Store, env: Foreign, body: LoginBody)
    requires TablesValid(t)
    requires c.routes.login != Disabled && Present(body.login) && Present(body.password)
    requires var found := LookupByLogin(t, s, body.login.value).result;
      && !found.serverError && found.value.Some?
      && RunCheckPassword(t, env, body.password.value, found.value.value.hashedPassword) == Returned(false, false)
    ensures var o := LoginFlow(c, t, s, env, body);
      o.response == SendAuthError(403, if c.sensitiveApi then 25 else 24) && o.store == s && Avoids(o.calls, StoreToken)
  {
    IdentificationCauses(c, t, s, env, body.login.value, body.password.value);
    IdentificationCalls(c, t, s, env, body.login.value, body.password.value);
  }

  /** A server error from the lookup, or from `checkPassword` on the user found, answers 500/5 and stores nothing. */
  lemma LoginIdentificationErrors(c: Config, t: HookTables, s: Store, env: Foreign, body: LoginBody)
    requires TablesValid(t)
    requires c.routes.login != Disabled && Present(body.login) && Present(body.password)
    ensures var o := LoginFlow(c, t, s, env, body);
      var found := LookupByLogin(t, s, body.login.value).result;
      && (found.serverError ==> o.response == SendAuthServerError() && o.store == s)
      && (!found.serverError && found.value.Some? && RunCheckPassword(t, env, body.password.value, found.value.value.hashedPassword).serverError ==>
            o.response == SendAuthServerError() && o.store == s)
  {
    IdentificationCauses(c, t, s, env, body.login.value, body.password.value);
  }

  /**
   * Once the user was identified, a server error from the intercept or from `storeToken` answers 500/5
   * and leaves the store as it was.
   */
  lemma LoginIssueErrors(c: Config, t: HookTables, s: Store, env: Foreign, body: LoginBody)
    requires TablesValid(t)
    requires c.routes.login != Disabled && Present(body.login) && Present(body.password)
    requires var found := LookupByLogin(t, s, body.login.value).result;
      && !found.serverError && found.value.Some?
      && RunCheckPassword(t, env, body.password.value, found.value.value.hashedPassword) == Returned(false, true)
    ensures var o := LoginFlow(c, t, s, env, body);
      var user := LookupByLogin(t, s, body.login.value).result.value.value;
      var veto := RunIntercept(t, LoginDataFor(c, env, user));
      && (veto.serverError ==> o.response == SendAuthServerError() && o.store == s)
      && (!veto.serverError && !veto.intercepted && RunStoreToken(t, s, RefreshTokenFor(c, env, user)).result.serverError ==>
            o.response == SendAuthServerError() && o.store == s)
  {
    IdentificationCauses(c, t, s, env, body.login.value, body.password.value);
    IssueCauses(c, t, s, env, LookupByLogin(t, s, body.login.value).result.value.value);
  }

  /**
   * Once the user was identified, an intercept that vetoes the login answers 403/29 with its own code;
   * `storeToken` is never called and the store stays as it was.
   */
  lemma LoginVetoed(c: Config, t: HookTables, s: Store, env: Foreign, body: LoginBody)
    requires TablesValid(t)
    requires c.routes.login != Disabled && Present(body.login) && Present(body.password)
    requires var found := LookupByLogin(t, s, body.login.value).result;
      && !found.serverError && found.value.Some?
      && RunCheckPassword(t, env, body.password.value, found.value.value.hashedPassword) == Returned(false, true)
    requires var veto := RunIntercept(t, LoginDataFor(c, env, LookupByLogin(t, s, body.login.value).result.value.value));
      !veto.serverError && veto.intercepted
    ensures var o := LoginFlow(c, t, s, env, body);
      var veto := RunIntercept(t, LoginDataFor(c, env, LookupByLogin(t, s, body.login.value).result.value.value));
      o.response == SendAuthError(403, 29, veto.interceptCode) && o.store == s && Avoids(o.calls, StoreToken)
  {
    var login, password := body.login.value, body.password.value;
    var user := LookupByLogin(t, s, login).result.value.value;
    IdentificationCauses(c, t, s, env, login, password);
    IdentificationCalls(c, t, s, env, login, password);
    IssueCauses(c, t, s, env, user);
    AvoidsConcat(LoginIdentification(c, t, s, env, login, password).calls, LoginIssue(c, t, s, env, user).calls, StoreToken);
  }

  /**
   * Conversely, a login that finds its user, whose password `checkPassword` accepts, which the intercept
   * lets through and whose refresh token `storeToken` stores answers 201/20 with the user's token pair.
   */
  lemma LoginSucceeds(c: Config, t: HookTables, s: Store, env: Foreign, body: LoginBody)
    requires TablesValid(t)
    requires c.routes.login != Disabled && Present(body.login) && Present(body.password)
    requires var found := LookupByLogin(t, s, body.login.value).result;
      && !found.serverError && found.value.Some?
      && RunCheckPassword(t, env, body.password.value, found.value.value.hashedPassword) == Returned(false, true)
    requires var user := LookupByLogin(t, s, body.login.value).result.value.value;
      var veto := RunIntercept(t, LoginDataFor(c, env, user));
      !veto.serverError && !veto.intercepted && !RunStoreToken(t, s, RefreshTokenFor(c, env, user)).result.serverError
    ensures var o := LoginFlow(c, t, s, env, body);
      var user := LookupByLogin(t, s, body.login.value).result.value.value;
      && o.response == SendAuthResponse(201, 20, Some(TokenPair(AccessTokenFor(c, env, user), RefreshTokenFor(c, env, user))))
      && o.store == WithToken(s, RefreshTokenFor(c, env, user))
  {
    var user := LookupByLogin(t, s, body.login.value).result.value.value;
    IdentificationCauses(c, t, s, env, body.login.value, body.password.value);
    IssueCauses(c, t, s, env, user);
    IssueStage(c, t, s, env, user);
  }

  /**
   * Against the example application's hooks, a login that names no stored user, by e-mail address or
   * by username, answers 403 with 23 (25 on a sensitive API) and never checks a password.
   */
  lemma ExampleUnknownLogin(c: Config, t: HookTables, s: Store, env: Foreign, login: string, password: string)
    requires TablesValid(t) && t.use[GetUserByMail] == Host(Example) && t.use[GetUserByName] == Host(Example)
    requires c.routes.login != Disabled && login != "" && password != ""
    requires forall u :: u in s.users ==> u.email != login && u.username != login
    ensures var o := LoginFlow(c, t, s, env, LoginBody(Some(login), Some(password)));
      && o.response == SendAuthError(403, if c.sensitiveApi then 25 else 23)
      && o.store == s && o.calls == [MailLookup(login), NameLookup(login)]
  {
    ExampleLookup(t, s, login);
  }
}
