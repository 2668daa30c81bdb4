/** The register flow: create a user from an e-mail address, a username and a password. */
module RegisterRoute {
  import opened Wrappers
  import opened Senders
  import opened AuthTypes
  import opened ExampleHost
  import opened Auth
  import opened CombinedLookup
  import InputValidation

  /** The request body; a field is `None` when it is absent. */
  datatype RegisterBody = RegisterBody(email: Option<string>, username: Option<string>, password: Option<string>)

  /** The whole flow: disabled route, missing fields, validation, uniqueness, then creation. */
  function RegisterFlow(c: Config, t: HookTables, s: Store, env: Foreign, body: RegisterBody): (o: Outcome)
    requires TablesValid(t)
  {
    if c.routes.register == Disabled then Outcome(SendAuthError(403, 11), s, [])
    else if !Present(body.email) || !Present(body.username) || !Present(body.password) then
      Outcome(SendAuthError(400, 12), s, [])
    else
      var email, username, password := body.email.value, body.username.value, body.password.value;
      Then(s, RegisterValidation(c, t, email, password),
        Then(s, RegisterUniqueness(c, t, s, email, username),
          RegisterCreation(t, s, env, email, username, password)))
  }

  /** E-mail validation, then password validation, each only when the configuration asks for it. */
  function RegisterValidation(c: Config, t: HookTables, email: string, password: string): (step: Step)
    requires TablesValid(t)
  {
    var mail := RunValidateMail(t, email);
    var mailCalls := if c.emailValidation then [MailValidation(email)] else [];
    if c.emailValidation && mail.serverError then Finished(SendAuthServerError(), mailCalls)
    else if c.emailValidation && !mail.value then Finished(SendAuthError(406, 13), mailCalls)
    else
      var rules := c.passwordValidationRules;
      var parsed := InputValidation.RulesOf(rules);
      var strength := RunValidatePassword(t, password, rules, parsed);
      var checkCalls := mailCalls + if c.passwordValidation then [PasswordValidation(password, rules, parsed)] else [];
      if c.passwordValidation && strength.serverError then Finished(SendAuthServerError(), checkCalls)
      else if c.passwordValidation && !strength.value then Finished(SendAuthError(406, 14), checkCalls)
      else Continue(checkCalls)
  }

  /** Neither the e-mail address nor the username may already be in use, as an e-mail address or a username. */
  function RegisterUniqueness(c: Config, t: HookTables, s: Store, email: string, username: string): (step: Step)
    requires TablesValid(t)
  {
    var byEmail := LookupByLogin(t, s, email);
    if byEmail.result.serverError then Finished(byEmail.sent.value, byEmail.calls)
    else if byEmail.result.value.Some? then
      Finished(SendAuthError(403, if c.sensitiveApi then 17 else 15), byEmail.calls)
    else
      var byName := LookupByLogin(t, s, username);
      if byName.result.serverError then Finished(byName.sent.value, byEmail.calls + byName.calls)
      else if byName.result.value.Some? then
        Finished(SendAuthError(403, if c.sensitiveApi then 17 else 16), byEmail.calls + byName.calls)
      else Continue(byEmail.calls + byName.calls)
  }

  /** Hash, id, the intercept's veto, and the store. */
  function RegisterCreation(t: HookTables, s: Store, env: Foreign, email: string, username: string, password: string): (o: Outcome)
    requires TablesValid(t)
  {
    var hashed := RunHashPassword(t, env, password);
    if hashed.serverError then Outcome(SendAuthServerError(), s, [PasswordHashing(password)])
    else
      var id := RunGenId(t, env, s, email, username);
      var idCalls := [PasswordHashing(password), IdGeneration(email, username)];
      if id.serverError then Outcome(SendAuthServerError(), s, idCalls)
      else
        var user := User(id.value, email, username, hashed.value);
        var veto := RunIntercept(t, RegisterData(user));
        var vetoCalls := idCalls + [Interception(RegisterData(user))];
        if veto.serverError then Outcome(SendAuthServerError(), s, vetoCalls)
        else if veto.intercepted then Outcome(SendAuthError(403, 19, veto.interceptCode), s, vetoCalls)
        else
          var stored := RunStoreUser(t, s, user);
          var storeCalls := vetoCalls + [UserStore(user)];
          if stored.result.serverError then Outcome(SendAuthServerError(), stored.store, storeCalls)
          else Outcome(SendAuthResponse(201, 10, Some(UserInfo(user.id, user.email, user.username))), stored.store, storeCalls)
  }

  /** E-mail validation is off, or `validateMail` accepted the address without error. */
  predicate MailPasses(c: Config, t: HookTables, email: string)
    requires TablesValid(t)
  {
    !c.emailValidation || RunValidateMail(t, email) == Returned(false, true)
  }

  /** Password validation is off, or `validatePassword` accepted the password under the configured rules without error. */
  predicate PasswordPasses(c: Config, t: HookTables, password: string)
    requires TablesValid(t)
  {
    var rules := c.passwordValidationRules;
    !c.passwordValidation || RunValidatePassword(t, password, rules, InputValidation.RulesOf(rules)) == Returned(false, true)
  }

  /** The user the creation stage builds: the `genId` id, the request's address and username, and the `hashPassword` hash. */
  function NewUserOf(t: HookTables, s: Store, env: Foreign, email: string, username: string, password: string): User
    requires TablesValid(t)
  {
    User(RunGenId(t, env, s, email, username).value, email, username, RunHashPassword(t, env, password).value)
  }

  /** The register handler: one early-returning pipeline over the instance's hooks. */
  method Register(auth: AuthInstance, env: Foreign, body: RegisterBody) returns (response: Response<Data>)
    requires auth.Valid()
    modifies auth`calls, auth.host.users
    ensures var o := RegisterFlow(auth.config, auth.Tables(), old(auth.State()), env, body);
      response == o.response && auth.State() == o.store && auth.calls == old(auth.calls) + o.calls
  {
    if auth.config.routes.register == Disabled {
      return SendAuthError(403, 11);
    }
    if !Present(body.email) || !Present(body.username) || !Present(body.password) {
      return SendAuthError(400, 12);
    }
    var email, username, password := body.email.value, body.username.value, body.password.value;
    ghost var s, t := auth.State(), auth.Tables();
    RegisterStages(auth.config, t, s, env, body);
    var invalid := ValidateRegistration(auth, email, password);
    if invalid.Some? {
      return invalid.value;
    }
    ghost var v := RegisterValidation(auth.config, t, email, password);
    var taken := CheckUniqueness(auth, email, username);
    if taken.Some? {
      TraceAssociative(old(auth.calls), v.calls, RegisterUniqueness(auth.config, t, s, email, username).calls);
      return taken.value;
    }
    ghost var u := RegisterUniqueness(auth.config, t, s, email, username);
    response := CreateUser(auth, env, email, username, password);
    ghost var rest := RegisterCreation(t, s, env, email, username, password);
    TraceAssociative(old(auth.calls), v.calls, u.calls);
    TraceAssociative(old(auth.calls) + v.calls, u.calls, rest.calls);
    TraceAssociative(old(auth.calls), v.calls, u.calls + rest.calls);
  }

  /** The validation steps of the handler: an early answer, or none to go on. */
  method ValidateRegistration(auth: AuthInstance, email: string, password: string) returns (answer: Option<Response<Data>>)
    requires auth.Valid()
    modifies auth`calls
    ensures var step := RegisterValidation(auth.config, auth.Tables(), email, password);
      Answers(answer, step) && auth.calls == old(auth.calls) + step.calls
  {
    if auth.config.emailValidation {
      var mail := auth.InvokeValidateMail(email);
      if mail.serverError {
        return Some(SendAuthServerError());
      }
      if !mail.value {
        return Some(SendAuthError(406, 13));
      }
    }
    if auth.config.passwordValidation {
      var parsed := InputValidation.ParsePasswordRules(auth.config.passwordValidationRules);
      var strength := auth.InvokeValidatePassword(password, auth.config.passwordValidationRules, parsed);
      if strength.serverError {
        return Some(SendAuthServerError());
      }
      if !strength.value {
        return Some(SendAuthError(406, 14));
      }
    }
    answer := None;
  }

  /** The two uniqueness lookups of the handler: an early answer, or none to go on. */
  method CheckUniqueness(auth: AuthInstance, email: string, username: string) returns (answer: Option<Response<Data>>)
    requires auth.Valid()
    modifies auth`calls
    ensures var step := RegisterUniqueness(auth.config, auth.Tables(), auth.State(), email, username);
      Answers(answer, step) && auth.calls == old(auth.calls) + step.calls
  {
    // A failed lookup has already answered with the server error; the handler's own answer comes too late.
    ghost var t, s := auth.Tables(), auth.State();
    var byEmail, sentByEmail := GetUserByLogin(auth, email);
    if byEmail.serverError {
      return sentByEmail;
    }
    if byEmail.value.Some? {
      return Some(SendAuthError(403, if auth.config.sensitiveApi then 17 else 15));
    }
    var byName, sentByName := GetUserByLogin(auth, username);
    TraceAssociative(old(auth.calls), LookupByLogin(t, s, email).calls, LookupByLogin(t, s, username).calls);
    if byName.serverError {
      return sentByName;
    }
    if byName.value.Some? {
      return Some(SendAuthError(403, if auth.config.sensitiveApi then 17 else 16));
    }
    answer := None;
  }

  /** Hashing, id generation, the intercept and the store. */
  method CreateUser(auth: AuthInstance, env: Foreign, email: string, username: string, password: string)
    returns (response: Response<Data>)
    requires auth.Valid()
    modifies auth`calls, auth.host.users
    ensures var o := RegisterCreation(auth.Tables(), old(auth.State()), env, email, username, password);
      response == o.response && auth.State() == o.store && auth.calls == old(auth.calls) + o.calls
  {
    var hashed := auth.InvokeHashPassword(env, password);
    if hashed.serverError {
      return SendAuthServerError();
    }
    var id := auth.InvokeGenId(env, email, username);
    if id.serverError {
      return SendAuthServerError();
    }
    var user := User(id.value, email, username, hashed.value);
    var veto := auth.InvokeIntercept(RegisterData(user));
    if veto.serverError {
      return SendAuthServerError();
    }
    if veto.intercepted {
      return SendAuthError(403, 19, veto.interceptCode);
    }
    var stored := auth.InvokeStoreUser(user);
    if stored.serverError {
      return SendAuthServerError();
    }
    return SendAuthResponse(201, 10, Some(UserInfo(user.id, user.email, user.username)));
  }

  /** The validation stage answers only 500/5, 406/13 or 406/14, each failure code only when its check is on. */
  lemma ValidationStage(c: Config, t: HookTables, email: string, password: string)
    requires TablesValid(t)
    ensures var step := RegisterValidation(c, t, email, password);
      && (step.Finished? ==> (step.response.auth.code, step.response.status) in {(5, 500), (13, 406), (14, 406)}
                             && step.response.auth.error && step.response.auth.interceptCode == 0)
      && (step.Finished? && step.response.auth.code == 13 ==> c.emailValidation)
      && (step.Finished? && step.response.auth.code == 14 ==> c.passwordValidation)
  {
  }

  /** The validation stage only validates: it never calls `storeUser`. */
  lemma ValidationCalls(c: Config, t: HookTables, email: string, password: string)
    requires TablesValid(t)
    ensures Avoids(RegisterValidation(c, t, email, password).calls, StoreUser)
  {
    var mailCalls := if c.emailValidation then [MailValidation(email)] else [];
    var calls := RegisterValidation(c, t, email, password).calls;
    var mail := RunValidateMail(t, email);
    if c.emailValidation && (mail.serverError || !mail.value) {
      assert calls == mailCalls;
    } else {
      var rules := c.passwordValidationRules;
      var passwordCalls := if c.passwordValidation then [PasswordValidation(password, rules, InputValidation.RulesOf(rules))] else [];
      assert calls == mailCalls + passwordCalls;
    }
  }

  /** With e-mail validation off, the validation stage never calls `validateMail`. */
  lemma ValidationSkipsMail(c: Config, t: HookTables, email: string, password: string)
    requires TablesValid(t) && !c.emailValidation
    ensures Avoids(RegisterValidation(c, t, email, password).calls, ValidateMail)
  {
    var calls := RegisterValidation(c, t, email, password).calls;
    if c.passwordValidation {
      var rules := c.passwordValidationRules;
      assert calls == [PasswordValidation(password, rules, InputValidation.RulesOf(rules))];
    } else {
      assert calls == [];
    }
  }

  /** With password validation off, the validation stage never calls `validatePassword`. */
  lemma ValidationSkipsPassword(c: Config, t: HookTables, email: string, password: string)
    requires TablesValid(t) && !c.passwordValidation
    ensures Avoids(RegisterValidation(c, t, email, password).calls, ValidatePassword)
  {
    var calls := RegisterValidation(c, t, email, password).calls;
    if c.emailValidation {
      assert calls == [MailValidation(email)];
    } else {
      assert calls == [];
    }
  }

  /** The uniqueness stage answers only 500/5 or 403 with 15, 16 or 17, where 17 replaces both when the API is sensitive. */
  lemma UniquenessStage(c: Config, t: HookTables, s: Store, email: string, username: string)
    requires TablesValid(t)
    ensures var step := RegisterUniqueness(c, t, s, email, username);
      && (step.Finished? ==> (step.response.auth.code, step.response.status) in {(5, 500), (15, 403), (16, 403), (17, 403)}
                             && step.response.auth.error && step.response.auth.interceptCode == 0)
      && (step.Finished? && step.response.auth.code in {15, 16, 17} ==> (step.response.auth.code == 17 <==> c.sensitiveApi))
  {
  }

  /** The uniqueness stage only looks users up. */
  lemma UniquenessCalls(c: Config, t: HookTables, s: Store, email: string, username: string)
    requires TablesValid(t)
    ensures var calls := RegisterUniqueness(c, t, s, email, username).calls;
      Avoids(calls, ValidateMail) && Avoids(calls, ValidatePassword) && Avoids(calls, StoreUser)
  {
    var byEmail := LookupByLogin(t, s, email).calls;
    var byName := LookupByLogin(t, s, username).calls;
    var calls := RegisterUniqueness(c, t, s, email, username).calls;
    assert calls == byEmail || calls == byEmail + byName;
    forall call | call in calls
      ensures call.MailLookup? || call.NameLookup?
    {
    }
  }

  /**
   * The creation stage answers 500/5, 403/19 or 201/10; 403/19 carries the intercept's own code. Only 201/10
   * changes the store, by exactly the new user built from the `genId` id and the `hashPassword` hash.
   */
  lemma CreationStage(t: HookTables, s: Store, env: Foreign, email: string, username: string, password: string)
    requires TablesValid(t)
    ensures var o := RegisterCreation(t, s, env, email, username, password);
      var r := o.response;
      && (r.auth.code, r.status) in {(5, 500), (10, 201), (19, 403)}
      && (r.auth.error <==> r.auth.code != 10)
      && (r.auth.code != 19 ==> r.auth.interceptCode == 0)
      && (r.auth.code == 10 ==>
            var user := User(RunGenId(t, env, s, email, username).value, email, username, RunHashPassword(t, env, password).value);
            && r == SendAuthResponse(201, 10, Some(UserInfo(user.id, email, username)))
            && o.store == WithUser(s, user))
      && (r.auth.code != 10 ==> o.store == s)
  {
  }

  /** The creation stage validates nothing. */
  lemma CreationCalls(t: HookTables, s: Store, env: Foreign, email: string, username: string, password: string)
    requires TablesValid(t)
    ensures var o := RegisterCreation(t, s, env, email, username, password);
      Avoids(o.calls, ValidateMail) && Avoids(o.calls, ValidatePassword)
  {
    var calls := RegisterCreation(t, s, env, email, username, password).calls;
    var hashing, naming := PasswordHashing(password), IdGeneration(email, username);
    if RunHashPassword(t, env, password).serverError {
      assert calls == [hashing];
    } else if RunGenId(t, env, s, email, username).serverError {
      assert calls == [hashing, naming];
    } else {
      var user := NewUserOf(t, s, env, email, username, password);
      assert calls == [hashing, naming, Interception(RegisterData(user))]
          || calls == [hashing, naming, Interception(RegisterData(user)), UserStore(user)];
    }
  }

  /** A successful creation ends with the call that stored the user it added. */
  lemma CreationStoresLast(t: HookTables, s: Store, env: Foreign, email: string, username: string, password: string)
    requires TablesValid(t)
    ensures var o := RegisterCreation(t, s, env, email, username, password);
      o.response.auth.code == 10 ==>
        |o.calls| > 0 && o.calls[|o.calls| - 1].UserStore? && o.store == WithUser(s, o.calls[|o.calls| - 1].user)
  {
  }

  /**
   * A veto (403/19) comes from the intercept, which saw the new user and was the last hook called, so
   * `storeUser` never ran.
   */
  lemma CreationVeto(t: HookTables, s: Store, env: Foreign, email: string, username: string, password: string)
    requires TablesValid(t)
    ensures var o := RegisterCreation(t, s, env, email, username, password);
      o.response.auth.code == 19 ==>
        && |o.calls| > 0 && Avoids(o.calls, StoreUser)
        && o.calls[|o.calls| - 1].Interception? && o.calls[|o.calls| - 1].data.RegisterData?
        && RunIntercept(t, o.calls[|o.calls| - 1].data) == InterceptResult(false, true, o.response.auth.interceptCode)
  {
  }

  /**
   * What decides validation: an address `validateMail` rejects answers 406/13 and a password
   * `validatePassword` rejects 406/14, a hook error 500/5, and the stage passes exactly when every
   * enabled check accepted.
   */
  lemma ValidationCauses(c: Config, t: HookTables, email: string, password: string)
    requires TablesValid(t)
    ensures var step := RegisterValidation(c, t, email, password);
      var mail := RunValidateMail(t, email);
      var rules := c.passwordValidationRules;
      var strength := RunValidatePassword(t, password, rules, InputValidation.RulesOf(rules));
      && (c.emailValidation && mail.serverError ==> step == Finished(SendAuthServerError(), [MailValidation(email)]))
      && (c.emailValidation && mail == Returned(false, false) ==> step == Finished(SendAuthError(406, 13), [MailValidation(email)]))
      && (MailPasses(c, t, email) && c.passwordValidation && strength.serverError ==>
            step.Finished? && step.response == SendAuthServerError())
      && (MailPasses(c, t, email) && c.passwordValidation && strength == Returned(false, false) ==>
            step.Finished? && step.response == SendAuthError(406, 14))
      && (step.Continue? <==> MailPasses(c, t, email) && PasswordPasses(c, t, password))
  {
  }

  /**
   * What decides uniqueness: an address already in use answers 403/15, a username already in use 403/16
   * (17 for both on a sensitive API), a lookup error 500/5, and the stage passes exactly when both
   * lookups found nobody.
   */
  lemma UniquenessCauses(c: Config, t: HookTables, s: Store, email: string, username: string)
    requires TablesValid(t)
    ensures var step := RegisterUniqueness(c, t, s, email, username);
      var byEmail := LookupByLogin(t, s, email).result;
      var byName := LookupByLogin(t, s, username).result;
      && (byEmail.serverError ==> step.Finished? && step.response == SendAuthServerError())
      && (!byEmail.serverError && byEmail.value.Some? ==>
            step.Finished? && step.response == SendAuthError(403, if c.sensitiveApi then 17 else 15))
      && (Unclaimed(t, s, email) && byName.serverError ==> step.Finished? && step.response == SendAuthServerError())
      && (Unclaimed(t, s, email) && !byName.serverError && byName.value.Some? ==>
            step.Finished? && step.response == SendAuthError(403, if c.sensitiveApi then 17 else 16))
      && (step.Continue? <==> Unclaimed(t, s, email) && Unclaimed(t, s, username))
  {
  }

  /** A server error from `hashPassword`, `genId`, the intercept or `storeUser` answers 500/5 and leaves the store as it was. */
  lemma CreationErrors(t: HookTables, s: Store, env: Foreign, email: string, username: string, password: string)
    requires TablesValid(t)
    ensures var o := RegisterCreation(t, s, env, email, username, password);
      var hashed := RunHashPassword(t, env, password);
      var id := RunGenId(t, env, s, email, username);
      var user := NewUserOf(t, s, env, email, username, password);
      var veto := RunIntercept(t, RegisterData(user));
      && (hashed.serverError || id.serverError ==> o.response == SendAuthServerError() && o.store == s)
      && (!hashed.serverError && !id.serverError && veto.serverError ==> o.response == SendAuthServerError() && o.store == s)
      && (!hashed.serverError && !id.serverError && !veto.serverError && !veto.intercepted && RunStoreUser(t, s, user).result.serverError ==>
            o.response == SendAuthServerError() && o.store == s)
  {
  }

  /**
   * An intercept that vetoes the new user answers 403/19 with its own code and stores nothing; creation
   * succeeds exactly when no hook reported an error and the intercept let the user through.
   */
  lemma CreationCauses(t: HookTables, s: Store, env: Foreign, email: string, username: string, password: string)
    requires TablesValid(t)
    ensures var o := RegisterCreation(t, s, env, email, username, password);
      var hashed := RunHashPassword(t, env, password);
      var id := RunGenId(t, env, s, email, username);
      var user := NewUserOf(t, s, env, email, username, password);
      var veto := RunIntercept(t, RegisterData(user));
      && (!hashed.serverError && !id.serverError && !veto.serverError && veto.intercepted ==>
            o.response == SendAuthError(403, 19, veto.interceptCode) && o.store == s && Avoids(o.calls, StoreUser))
      && (o.response.auth.code == 10 <==>
            !hashed.serverError && !id.serverError && !veto.serverError && !veto.intercepted
            && !RunStoreUser(t, s, user).result.serverError)
  {
  }

  /** A disabled route answers 403/11 before any hook runs; a missing field answers 400/12, also before any hook. */
  lemma RegisterRejectsEarly(c: Config, t: HookTables, s: Store, env: Foreign, body: RegisterBody)
    requires TablesValid(t)
    ensures c.routes.register == Disabled ==> RegisterFlow(c, t, s, env, body) == Outcome(SendAuthError(403, 11), s, [])
    ensures c.routes.register != Disabled && !(Present(body.email) && Present(body.username) && Present(body.password))
      ==> RegisterFlow(c, t, s, env, body) == Outcome(SendAuthError(400, 12), s, [])
  {
  }

  /**
   * How the flow composes its three stages once past the early checks: the first stage to answer
   * decides the response, and the store changes only in the last stage.
   */
  lemma RegisterStages(c: Config, t: HookTables, s: Store, env: Foreign, body: RegisterBody)
    requires TablesValid(t)
    requires c.routes.register != Disabled && Present(body.email) && Present(body.username) && Present(body.password)
    ensures var email, username, password := body.email.value, body.username.value, body.password.value;
      var v := RegisterValidation(c, t, email, password);
      var u := RegisterUniqueness(c, t, s, email, username);
      var rest := RegisterCreation(t, s, env, email, username, password);
      var o := RegisterFlow(c, t, s, env, body);
      && (v.Finished? ==> o == Outcome(v.response, s, v.calls))
      && (v.Continue? && u.Finished? ==> o == Outcome(u.response, s, v.calls + u.calls))
      && (v.Continue? && u.Continue? ==> o == Outcome(rest.response, rest.store, v.calls + (u.calls + rest.calls)))
  {
  }

  /** The answers register can give: each code with its status, and an error flag on everything but 10. */
  lemma RegisterAnswers(c: Config, t: HookTables, s: Store, env: Foreign, body: RegisterBody)
    requires TablesValid(t)
    ensures var r := RegisterFlow(c, t, s, env, body).response;
      && (r.auth.code, r.status) in {(5, 500), (10, 201), (11, 403), (12, 400), (13, 406), (14, 406),
                                      (15, 403), (16, 403), (17, 403), (19, 403)}
      && (r.auth.error <==> r.auth.code != 10)
      && (r.auth.code != 19 ==> r.auth.interceptCode == 0)
  {
    if c.routes.register != Disabled && Present(body.email) && Present(body.username) && Present(body.password) {
      var email, username, password := body.email.value, body.username.value, body.password.value;
      ValidationStage(c, t, email, password);
      UniquenessStage(c, t, s, email, username);
      CreationStage(t, s, env, email, username, password);
      RegisterStages(c, t, s, env, body);
    }
  }

  /** A collision answers 17 exactly when the API is sensitive, and leaves the store as it was. */
  lemma RegisterCollisionCodes(c: Config, t: HookTables, s: Store, env: Foreign, body: RegisterBody)
    requires TablesValid(t)
    ensures var o := RegisterFlow(c, t, s, env, body);
      o.response.auth.code in {15, 16, 17} ==> (o.response.auth.code == 17 <==> c.sensitiveApi) && o.store == s
  {
    if c.routes.register != Disabled && Present(body.email) && Present(body.username) && Present(body.password) {
      var email, username, password := body.email.value, body.username.value, body.password.value;
      ValidationStage(c, t, email, password);
      UniquenessStage(c, t, s, email, username);
      CreationStage(t, s, env, email, username, password);
      RegisterStages(c, t, s, env, body);
    }
  }

  /** A collision never calls `storeUser`. */
  lemma RegisterCollisionStoresNothing(c: Config, t: HookTables, s: Store, env: Foreign, body: RegisterBody)
    requires TablesValid(t)
    ensures var o := RegisterFlow(c, t, s, env, body);
      o.response.auth.code in {15, 16, 17} ==> Avoids(o.calls, StoreUser)
  {
    if c.routes.register != Disabled && Present(body.email) && Present(body.username) && Present(body.password) {
      var email, username, password := body.email.value, body.username.value, body.password.value;
      var v := RegisterValidation(c, t, email, password);
      var u := RegisterUniqueness(c, t, s, email, username);
      ValidationStage(c, t, email, password);
      ValidationCalls(c, t, email, password);
      UniquenessCalls(c, t, s, email, username);
      CreationStage(t, s, env, email, username, password);
      RegisterStages(c, t, s, env, body);
      AvoidsConcat(v.calls, u.calls, StoreUser);
    }
  }

  /** An e-mail check the configuration turns off is never called, and its failure code never answered. */
  lemma RegisterSkipsMailCheck(c: Config, t: HookTables, s: Store, env: Foreign, body: RegisterBody)
    requires TablesValid(t) && !c.emailValidation
    ensures var o := RegisterFlow(c, t, s, env, body);
      o.response.auth.code != 13 && Avoids(o.calls, ValidateMail)
  {
    if c.routes.register != Disabled && Present(body.email) && Present(body.username) && Present(body.password) {
      var email, username, password := body.email.value, body.username.value, body.password.value;
      var v := RegisterValidation(c, t, email, password);
      var u := RegisterUniqueness(c, t, s, email, username);
      var rest := RegisterCreation(t, s, env, email, username, password);
      ValidationStage(c, t, email, password);
      ValidationSkipsMail(c, t, email, password);
      UniquenessStage(c, t, s, email, username);
      UniquenessCalls(c, t, s, email, username);
      CreationStage(t, s, env, email, username, password);
      CreationCalls(t, s, env, email, username, password);
      RegisterStages(c, t, s, env, body);
      AvoidsConcat(v.calls, u.calls, ValidateMail);
      AvoidsConcat(u.calls, rest.calls, ValidateMail);
      AvoidsConcat(v.calls, u.calls + rest.calls, ValidateMail);
    }
  }

  /** A password check the configuration turns off is never called, and its failure code never answered. */
  lemma RegisterSkipsPasswordCheck(c: Config, t: HookTables, s: Store, env: Foreign, body: RegisterBody)
    requires TablesValid(t) && !c.passwordValidation
    ensures var o := RegisterFlow(c, t, s, env, body);
      o.response.auth.code != 14 && Avoids(o.calls, ValidatePassword)
  {
    if c.routes.register != Disabled && Present(body.email) && Present(body.username) && Present(body.password) {
      var email, username, password := body.email.value, body.username.value, body.password.value;
      var v := RegisterValidation(c, t, email, password);
      var u := RegisterUniqueness(c, t, s, email, username);
      var rest := RegisterCreation(t, s, env, email, username, password);
      ValidationStage(c, t, email, password);
      ValidationSkipsPassword(c, t, email, password);
      UniquenessStage(c, t, s, email, username);
      UniquenessCalls(c, t, s, email, username);
      CreationStage(t, s, env, email, username, password);
      CreationCalls(t, s, env, email, username, password);
      RegisterStages(c, t, s, env, body);
      AvoidsConcat(v.calls, u.calls, ValidatePassword);
      AvoidsConcat(u.calls, rest.calls, ValidatePassword);
      AvoidsConcat(v.calls, u.calls + rest.calls, ValidatePassword);
    }
  }

  /** A veto (403/19) leaves the store as it was: `storeUser` never ran. */
  lemma RegisterVetoStoresNothing(c: Config, t: HookTables, s: Store, env: Foreign, body: RegisterBody)
    requires TablesValid(t)
    ensures var o := RegisterFlow(c, t, s, env, body);
      o.response.auth.code == 19 ==> o.store == s && Avoids(o.calls, StoreUser)
  {
    if c.routes.register != Disabled && Present(body.email) && Present(body.username) && Present(body.password) {
      var email, username, password := body.email.value, body.username.value, body.password.value;
      var v := RegisterValidation(c, t, email, password);
      var u := RegisterUniqueness(c, t, s, email, username);
      var rest := RegisterCreation(t, s, env, email, username, password);
      ValidationStage(c, t, email, password);
      ValidationCalls(c, t, email, password);
      UniquenessStage(c, t, s, email, username);
      UniquenessCalls(c, t, s, email, username);
      CreationStage(t, s, env, email, username, password);
      CreationVeto(t, s, env, email, username, password);
      RegisterStages(c, t, s, env, body);
      AvoidsConcat(u.calls, rest.calls, StoreUser);
      AvoidsConcat(v.calls, u.calls + rest.calls, StoreUser);
    }
  }

  /** A veto answers 403/19 with the intercept's own code, and the intercept, shown the new user, was the last hook called. */
  lemma RegisterVetoIsLastCall(c: Config, t: HookTables, s: Store, env: Foreign, body: RegisterBody)
    requires TablesValid(t)
    ensures var o := RegisterFlow(c, t, s, env, body);
      o.response.auth.code == 19 ==>
        && |o.calls| > 0 && o.calls[|o.calls| - 1].Interception? && o.calls[|o.calls| - 1].data.RegisterData?
        && RunIntercept(t, o.calls[|o.calls| - 1].data) == InterceptResult(false, true, o.response.auth.interceptCode)
  {
    if c.routes.register != Disabled && Present(body.email) && Present(body.username) && Present(body.password) {
      var email, username, password := body.email.value, body.username.value, body.password.value;
      var v := RegisterValidation(c, t, email, password);
      var u := RegisterUniqueness(c, t, s, email, username);
      var rest := RegisterCreation(t, s, env, email, username, password);
      ValidationStage(c, t, email, password);
      UniquenessStage(c, t, s, email, username);
      CreationVeto(t, s, env, email, username, password);
      RegisterStages(c, t, s, env, body);
      if rest.response.auth.code == 19 {
        LastCallAfter(u.calls, rest.calls);
        LastCallAfter(v.calls, u.calls + rest.calls);
      }
    }
  }

  /**
   * A successful registration passed every enabled validation, found both the address and the username
   * unused, met no hook error and was let through by the intercept; it stores exactly one new user, built
   * from the request, the `genId` id and the `hashPassword` hash, and answers 201/10 with its id, e-mail
   * and username only.
   */
  lemma RegisterSuccess(c: Config, t: HookTables, s: Store, env: Foreign, body: RegisterBody)
    requires TablesValid(t)
    requires RegisterFlow(c, t, s, env, body).response.auth.code == 10
    ensures Present(body.email) && Present(body.username) && Present(body.password)
    ensures var email, username, password := body.email.value, body.username.value, body.password.value;
      var veto := RunIntercept(t, RegisterData(NewUserOf(t, s, env, email, username, password)));
      && MailPasses(c, t, email) && PasswordPasses(c, t, password)
      && Unclaimed(t, s, email) && Unclaimed(t, s, username)
      && !RunHashPassword(t, env, password).serverError && !RunGenId(t, env, s, email, username).serverError
      && !veto.serverError && !veto.intercepted
    ensures var o := RegisterFlow(c, t, s, env, body);
      var email, username := body.email.value, body.username.value;
      var user := NewUserOf(t, s, env, email, username, body.password.value);
      && o.response == SendAuthResponse(201, 10, Some(UserInfo(user.id, email, username)))
      && o.store == WithUser(s, user)
  {
    var email, username, password := body.email.value, body.username.value, body.password.value;
    ValidationStage(c, t, email, password);
    UniquenessStage(c, t, s, email, username);
    CreationStage(t, s, env, email, username, password);
    RegisterStages(c, t, s, env, body);
    ValidationCauses(c, t, email, password);
    UniquenessCauses(c, t, s, email, username);
    CreationCauses(t, s, env, email, username, password);
  }

  /**
   * Conversely, a request whose every enabled validation passes, whose address and username are unused,
   * whose hooks report no error and which the intercept lets through registers the new user: 201/10.
   */
  lemma RegisterSucceeds(c: Config, t: HookTables, s: Store, env: Foreign, body: RegisterBody)
    requires TablesValid(t)
    requires c.routes.register != Disabled && Present(body.email) && Present(body.username) && Present(body.password)
    requires MailPasses(c, t, body.email.value) && PasswordPasses(c, t, body.password.value)
    requires Unclaimed(t, s, body.email.value) && Unclaimed(t, s, body.username.value)
    requires !RunHashPassword(t, env, body.password.value).serverError
    requires !RunGenId(t, env, s, body.email.value, body.username.value).serverError
    requires var user := NewUserOf(t, s, env, body.email.value, body.username.value, body.password.value);
      var veto := RunIntercept(t, RegisterData(user));
      !veto.serverError && !veto.intercepted && !RunStoreUser(t, s, user).result.serverError
    ensures var o := RegisterFlow(c, t, s, env, body);
      var user := NewUserOf(t, s, env, body.email.value, body.username.value, body.password.value);
      o.response == SendAuthResponse(201, 10, Some(UserInfo(user.id, user.email, user.username))) && o.store == WithUser(s, user)
  {
    var email, username, password := body.email.value, body.username.value, body.password.value;
    ValidationCauses(c, t, email, password);
    UniquenessCauses(c, t, s, email, username);
    CreationCauses(t, s, env, email, username, password);
    CreationStage(t, s, env, email, username, password);
    RegisterStages(c, t, s, env, body);
  }

  /** With e-mail validation on, an address `validateMail` rejects answers 406/13 after that one call and stores nothing. */
  lemma RegisterRejectsBadEmail(c: Config, t: HookTables, s: Store, env: Foreign, body: RegisterBody)
    requires TablesValid(t)
    requires c.routes.register != Disabled && Present(body.email) && Present(body.username) && Present(body.password)
    requires c.emailValidation && RunValidateMail(t, body.email.value) == Returned(false, false)
    ensures RegisterFlow(c, t, s, env, body) == Outcome(SendAuthError(406, 13), s, [MailValidation(body.email.value)])
  {
    ValidationCauses(c, t, body.email.value, body.password.value);
    RegisterStages(c, t, s, env, body);
  }

  /** With password validation on, a password `validatePassword` rejects, after the address passed, answers 406/14 and stores nothing. */
  lemma RegisterRejectsWeakPassword(c: Config, t: HookTables, s: Store, env: Foreign, body: RegisterBody)
    requires TablesValid(t)
    requires c.routes.register != Disabled && Present(body.email) && Present(body.username) && Present(body.password)
    requires MailPasses(c, t, body.email.value) && c.passwordValidation
    requires var rules := c.passwordValidationRules;
      RunValidatePassword(t, body.password.value, rules, InputValidation.RulesOf(rules)) == Returned(false, false)
    ensures var o := RegisterFlow(c, t, s, env, body);
      o.response == SendAuthError(406, 14) && o.store == s
  {
    ValidationCauses(c, t, body.email.value, body.password.value);
    RegisterStages(c, t, s, env, body);
  }

  /** With validation passed, an address some user already holds as e-mail or username answers 403/15 (17 on a sensitive API) and stores nothing. */
  lemma RegisterEmailTaken(c: Config, t: HookTables, s: Store, env: Foreign, body: RegisterBody)
    requires TablesValid(t)
    requires c.routes.register != Disabled && Present(body.email) && Present(body.username) && Present(body.password)
    requires MailPasses(c, t, body.email.value) && PasswordPasses(c, t, body.password.value)
    requires var found := LookupByLogin(t, s, body.email.value).result; !found.serverError && found.value.Some?
    ensures var o := RegisterFlow(c, t, s, env, body);
      o.response == SendAuthError(403, if c.sensitiveApi then 17 else 15) && o.store == s
  {
    ValidationCauses(c, t, body.email.value, body.password.value);
    UniquenessCauses(c, t, s, body.email.value, body.username.value);
    RegisterStages(c, t, s, env, body);
  }

  /** With validation passed and the address unused, a username some user already holds answers 403/16 (17 on a sensitive API) and stores nothing. */
  lemma RegisterUsernameTaken(c: Config, t: HookTables, s: Store, env: Foreign, body: RegisterBody)
    requires TablesValid(t)
    requires c.routes.register != Disabled && Present(body.email) && Present(body.username) && Present(body.password)
    requires MailPasses(c, t, body.email.value) && PasswordPasses(c, t, body.password.value)
    requires Unclaimed(t, s, body.email.value)
    requires var found := LookupByLogin(t, s, body.username.value).result; !found.serverError && found.value.Some?
    ensures var o := RegisterFlow(c, t, s, env, body);
      o.response == SendAuthError(403, if c.sensitiveApi then 17 else 16) && o.store == s
  {
    ValidationCauses(c, t, body.email.value, body.password.value);
    UniquenessCauses(c, t, s, body.email.value, body.username.value);
    RegisterStages(c, t, s, env, body);
  }

  /** A server error from an enabled validation hook answers 500/5 and stores nothing. */
  lemma RegisterValidationErrors(c: Config, t: HookTables, s: Store, env: Foreign, body: RegisterBody)
    requires TablesValid(t)
    requires c.routes.register != Disabled && Present(body.email) && Present(body.username) && Present(body.password)
    ensures var o := RegisterFlow(c, t, s, env, body);
      var email, password := body.email.value, body.password.value;
      var rules := c.passwordValidationRules;
      var strength := RunValidatePassword(t, password, rules, InputValidation.RulesOf(rules));
      && (c.emailValidation && RunValidateMail(t, email).serverError ==> o.response == SendAuthServerError() && o.store == s)
      && (MailPasses(c, t, email) && c.passwordValidation && strength.serverError ==> o.response == SendAuthServerError() && o.store == s)
  {
    ValidationCauses(c, t, body.email.value, body.password.value);
    RegisterStages(c, t, s, env, body);
  }

  /** After validation passed, a server error from either uniqueness lookup answers 500/5 and stores nothing. */
  lemma RegisterLookupErrors(c: Config, t: HookTables, s: Store, env: Foreign, body: RegisterBody)
    requires TablesValid(t)
    requires c.routes.register != Disabled && Present(body.email) && Present(body.username) && Present(body.password)
    requires MailPasses(c, t, body.email.value) && PasswordPasses(c, t, body.password.value)
    ensures var o := RegisterFlow(c, t, s, env, body);
      var email, username := body.email.value, body.username.value;
      && (LookupByLogin(t, s, email).result.serverError ==> o.response == SendAuthServerError() && o.store == s)
      && (Unclaimed(t, s, email) && LookupByLogin(t, s, username).result.serverError ==> o.response == SendAuthServerError() && o.store == s)
  {
    ValidationCauses(c, t, body.email.value, body.password.value);
    UniquenessCauses(c, t, s, body.email.value, body.username.value);
    RegisterStages(c, t, s, env, body);
  }

  /**
   * Once validation and uniqueness passed, a server error from `hashPassword`, `genId`, the intercept or
   * `storeUser` answers 500/5 and leaves the store as it was.
   */
  lemma RegisterCreationErrors(c: Config, t: HookTables, s: Store, env: Foreign, body: RegisterBody)
    requires TablesValid(t)
    requires c.routes.register != Disabled && Present(body.email) && Present(body.username) && Present(body.password)
    requires MailPasses(c, t, body.email.value) && PasswordPasses(c, t, body.password.value)
    requires Unclaimed(t, s, body.email.value) && Unclaimed(t, s, body.username.value)
    ensures var o := RegisterFlow(c, t, s, env, body);
      var email, username, password := body.email.value, body.username.value, body.password.value;
      var hashed := RunHashPassword(t, env, password);
      var id := RunGenId(t, env, s, email, username);
      var user := NewUserOf(t, s, env, email, username, password);
      var veto := RunIntercept(t, RegisterData(user));
      && (hashed.serverError || id.serverError ==> o.response == SendAuthServerError() && o.store == s)
      && (!hashed.serverError && !id.serverError && veto.serverError ==> o.response == SendAuthServerError() && o.store == s)
      && (!hashed.serverError && !id.serverError && !veto.serverError && !veto.intercepted && RunStoreUser(t, s, user).result.serverError ==>
            o.response == SendAuthServerError() && o.store == s)
  {
    var email, username, password := body.email.value, body.username.value, body.password.value;
    ValidationCauses(c, t, email, password);
    UniquenessCauses(c, t, s, email, username);
    CreationErrors(t, s, env, email, username, password);
    RegisterStages(c, t, s, env, body);
  }

  /**
   * Once validation and uniqueness passed and the id and hash were made, an intercept that vetoes the new
   * user answers 403/19 with its own code; `storeUser` is never called and the store stays as it was.
   */
  lemma RegisterVetoed(c: Config, t: HookTables, s: Store, env: Foreign, body: RegisterBody)
    requires TablesValid(t)
    requires c.routes.register != Disabled && Present(body.email) && Present(body.username) && Present(body.password)
    requires MailPasses(c, t, body.email.value) && PasswordPasses(c, t, body.password.value)
    requires Unclaimed(t, s, body.email.value) && Unclaimed(t, s, body.username.value)
    requires !RunHashPassword(t, env, body.password.value).serverError
    requires !RunGenId(t, env, s, body.email.value, body.username.value).serverError
    requires var veto := RunIntercept(t, RegisterData(NewUserOf(t, s, env, body.email.value, body.username.value, body.password.value)));
      !veto.serverError && veto.intercepted
    ensures var o := RegisterFlow(c, t, s, env, body);
      var veto := RunIntercept(t, RegisterData(NewUserOf(t, s, env, body.email.value, body.username.value, body.password.value)));
      o.response == SendAuthError(403, 19, veto.interceptCode) && o.store == s && Avoids(o.calls, StoreUser)
  {
    var email, username, password := body.email.value, body.username.value, body.password.value;
    var v := RegisterValidation(c, t, email, password);
    var u := RegisterUniqueness(c, t, s, email, username);
    var rest := RegisterCreation(t, s, env, email, username, password);
    ValidationCauses(c, t, email, password);
    ValidationCalls(c, t, email, password);
    UniquenessCauses(c, t, s, email, username);
    UniquenessCalls(c, t, s, email, username);
    CreationCauses(t, s, env, email, username, password);
    RegisterStages(c, t, s, env, body);
    AvoidsConcat(u.calls, rest.calls, StoreUser);
    AvoidsConcat(v.calls, u.calls + rest.calls, StoreUser);
  }

  /** A successful registration ends with the call that stored the user it added. */
  lemma RegisterSuccessIsLastCall(c: Config, t: HookTables, s: Store, env: Foreign, body: RegisterBody)
    requires TablesValid(t)
    ensures var o := RegisterFlow(c, t, s, env, body);
      o.response.auth.code == 10 ==>
        |o.calls| > 0 && o.calls[|o.calls| - 1].UserStore? && o.store == WithUser(s, o.calls[|o.calls| - 1].user)
  {
    if c.routes.register != Disabled && Present(body.email) && Present(body.username) && Present(body.password) {
      var email, username, password := body.email.value, body.username.value, body.password.value;
      var v := RegisterValidation(c, t, email, password);
      var u := RegisterUniqueness(c, t, s, email, username);
      var rest := RegisterCreation(t, s, env, email, username, password);
      ValidationStage(c, t, email, password);
      UniquenessStage(c, t, s, email, username);
      CreationStage(t, s, env, email, username, password);
      CreationStoresLast(t, s, env, email, username, password);
      RegisterStages(c, t, s, env, body);
      if rest.response.auth.code == 10 {
        LastCallAfter(u.calls, rest.calls);
        LastCallAfter(v.calls, u.calls + rest.calls);
      }
    }
  }

  /** Whatever happens, the store either stays as it was or, on success only, gains exactly one user. */
  lemma RegisterStoreEffect(c: Config, t: HookTables, s: Store, env: Foreign, body: RegisterBody)
    requires TablesValid(t)
    ensures var o := RegisterFlow(c, t, s, env, body);
      o.store == s || (o.response.auth.code == 10 && |o.store.users| == |s.users| + 1 && o.store.tokens == s.tokens)
  {
    if c.routes.register != Disabled && Present(body.email) && Present(body.username) && Present(body.password) {
      var email, username, password := body.email.value, body.username.value, body.password.value;
      ValidationStage(c, t, email, password);
      UniquenessStage(c, t, s, email, username);
      CreationStage(t, s, env, email, username, password);
      RegisterStages(c, t, s, env, body);
    }
  }
}
