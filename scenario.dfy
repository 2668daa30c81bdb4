/**
 * A whole session against the example application's hooks: register, log in, check, log out, and
 * check again.
 */
module Scenario {
  import opened Wrappers
  import opened Senders
  import opened TokenUtils
  import opened AuthTypes
  import opened ExampleHost
  import opened Auth
  import opened CombinedLookup
  import opened RegisterRoute
  import opened LoginRoute
  import opened LogoutRoute
  import opened CheckRoute
  import opened RefreshGate
  import Security
  import VirtualDatabase

  /**
   * The example application's tables: its own callback for every use event. Its five intercepts only
   * log and always allow, so each slot is `PassThrough`, which answers the same.
   */
  function ExampleTables(): (t: HookTables)
    ensures TablesValid(t)
    ensures forall e: UseEvent :: t.use[e] == Host(Example)
    ensures forall e: InterceptEvent :: t.intercept[e] == PassThrough
  {
    EventsListed();
    HookTables(map e | e in AllUseEvents :: Host(Example), map e | e in AllInterceptEvents :: PassThrough)
  }

  /** Neither value is an e-mail address or a username of a stored user. */
  predicate Unused(s: Store, email: string, username: string) {
    forall u :: u in s.users ==> u.email != email && u.username != email && u.email != username && u.username != username
  }

  /** The user a registration with the example hooks creates. */
  function NewUser(s: Store, email: string, username: string, password: string): User {
    User(NextId(s).value, email, username, Security.Hash(password))
  }

  /** Registration with fresh values that pass the example's checks creates the user and answers 201/10. */
  lemma RegisterNewUser(c: Config, s: Store, env: Foreign, email: string, username: string, password: string)
    requires c.routes.register != Disabled && email != "" && username != "" && |password| >= 8
    requires '@' in email && Unused(s, email, username)
    ensures var user := NewUser(s, email, username, password);
      var o := RegisterFlow(c, ExampleTables(), s, env, RegisterBody(Some(email), Some(username), Some(password)));
      o.response == SendAuthResponse(201, 10, Some(UserInfo(user.id, email, username))) && o.store == WithUser(s, user)
  {
    var t := ExampleTables();
    ExampleLookup(t, s, email);
    ExampleLookup(t, s, username);
    assert RegisterValidation(c, t, email, password).Continue?;
    assert RegisterUniqueness(c, t, s, email, username).Continue?;
  }

  /** Right after registering, the new user's e-mail address and password pass identification. */
  lemma NewUserIdentified(c: Config, s: Store, env: Foreign, user: User, password: string)
    requires user.hashedPassword == Security.Hash(password)
    requires forall u :: u in s.users ==> u.email != user.email && u.username != user.email
    ensures LoginIdentification(c, ExampleTables(), WithUser(s, user), env, user.email, password).Continue?
    ensures LookupByLogin(ExampleTables(), WithUser(s, user), user.email).result.value == Some(user)
  {
    var t := ExampleTables();
    var s1 := WithUser(s, user);
    ExampleLookup(t, s1, user.email);
    assert LookupByLogin(t, s1, user.email).result.value == Some(user);
    Security.CompareHashRoundTrip(password);
  }

  /** Logging in by e-mail address right after registering finds the new user and hands out its tokens. */
  lemma LoginNewUser(c: Config, s: Store, env: Foreign, user: User, password: string)
    requires c.routes.login != Disabled && user.email != "" && password != ""
    requires user.hashedPassword == Security.Hash(password)
    requires forall u :: u in s.users ==> u.email != user.email && u.username != user.email
    ensures var refreshToken := RefreshTokenFor(c, env, user);
      var o := LoginFlow(c, ExampleTables(), WithUser(s, user), env, LoginBody(Some(user.email), Some(password)));
      && o.response == SendAuthResponse(201, 20, Some(TokenPair(AccessTokenFor(c, env, user), refreshToken)))
      && o.store == WithToken(WithUser(s, user), refreshToken)
  {
    NewUserIdentified(c, s, env, user, password);
    IssueStage(c, ExampleTables(), WithUser(s, user), env, user);
  }

  /** With a non-negative `expiresIn`, right after a login, at the same moment, check passes with 200/50 while the refresh token is stored. */
  lemma CheckLoggedIn(c: Config, s: Store, env: Foreign, user: User)
    requires c.routes.check != Disabled && c.expiresIn >= 0
    requires TokenRecord(RefreshTokenFor(c, env, user)) in s.tokens
    ensures var body := CheckBody(Some(AccessTokenFor(c, env, user)), Some(RefreshTokenFor(c, env, user)));
      CheckFlow(c, ExampleTables(), s, env, body).response == SendAuthResponse(200, 50, None)
  {
    var payload := TokenPayload(user.id);
    GenerateDecodeRoundTrip(payload, c.refreshTokenSecret, None, env.now, env.now);
    GenerateDecodeRoundTrip(payload, c.accessTokenSecret, Some(c.expiresIn), env.now, env.now);
    GatePassesStoredTokens(c, ExampleTables(), s, env, RefreshTokenFor(c, env, user), 53, 54);
  }

  /** Logging out with a refresh token stored only by the login removes exactly that record and answers 200/10. */
  lemma LogoutLoggedIn(c: Config, s: Store, env: Foreign, user: User)
    requires c.routes.logout != Disabled
    requires forall r :: r in s.tokens ==> r.refreshToken != RefreshTokenFor(c, env, user)
    ensures var token := RefreshTokenFor(c, env, user);
      var o := LogoutFlow(c, ExampleTables(), WithToken(s, token), env, LogoutBody(Some(token)));
      o.response == SendAuthResponse(200, 10, None) && o.store == s
  {
    var t := ExampleTables();
    var token := RefreshTokenFor(c, env, user);
    var s2 := WithToken(s, token);
    GenerateDecodeRoundTrip(TokenPayload(user.id), c.refreshTokenSecret, None, env.now, env.now);
    assert s2.tokens[|s.tokens|] == TokenRecord(token);
    GatePassesStoredTokens(c, t, s2, env, token, 33, 34);
    WithoutNewToken(s, token);
  }

  /**
   * With a non-negative `expiresIn` — register, log in, check, log out, check: the first check passes with 200/50, logout answers
   * 200/10 and leaves the store as registration left it, and the second check, with the same tokens,
   * answers 404/54.
   */
  lemma Session(c: Config, s: Store, env: Foreign, email: string, username: string, password: string)
    requires c.routes.register != Disabled && c.routes.login != Disabled && c.routes.logout != Disabled && c.routes.check != Disabled
    requires c.expiresIn >= 0
    requires email != "" && username != "" && |password| >= 8 && '@' in email && Unused(s, email, username)
    requires forall r :: r in s.tokens ==> r.refreshToken.Raw? || r.refreshToken.payload.id != NextId(s).value
    ensures var t := ExampleTables();
      var user := NewUser(s, email, username, password);
      var accessToken, refreshToken := AccessTokenFor(c, env, user), RefreshTokenFor(c, env, user);
      var registered := RegisterFlow(c, t, s, env, RegisterBody(Some(email), Some(username), Some(password)));
      var loggedIn := LoginFlow(c, t, registered.store, env, LoginBody(Some(email), Some(password)));
      var checked := CheckFlow(c, t, loggedIn.store, env, CheckBody(Some(accessToken), Some(refreshToken)));
      var loggedOut := LogoutFlow(c, t, loggedIn.store, env, LogoutBody(Some(refreshToken)));
      var rechecked := CheckFlow(c, t, loggedOut.store, env, CheckBody(Some(accessToken), Some(refreshToken)));
      && registered.response.auth.code == 10
      && loggedIn.response == SendAuthResponse(201, 20, Some(TokenPair(accessToken, refreshToken)))
      && checked.response == SendAuthResponse(200, 50, None)
      && loggedOut.response == SendAuthResponse(200, 10, None) && loggedOut.store == registered.store
      && rechecked.response == SendAuthError(404, 54)
  {
    var t := ExampleTables();
    var user := NewUser(s, email, username, password);
    var accessToken, refreshToken := AccessTokenFor(c, env, user), RefreshTokenFor(c, env, user);
    RegisterNewUser(c, s, env, email, username, password);
    var s1 := WithUser(s, user);
    LoginNewUser(c, s, env, user, password);
    var s2 := WithToken(s1, refreshToken);
    assert s2.tokens[|s1.tokens|] == TokenRecord(refreshToken);
    CheckLoggedIn(c, s2, env, user);
    LogoutLoggedIn(c, s1, env, user);
    GenerateDecodeRoundTrip(TokenPayload(user.id), c.refreshTokenSecret, None, env.now, env.now);
    UnknownSessionBeforeAccess(c, t, s1, env, accessToken, refreshToken);
  }
}
