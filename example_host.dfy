/**
 * The example application that embeds the engine: a user table and a refresh-token table, each a
 * `Database`, and one callback per use event working on them.
 */
module ExampleHost {
  import opened Wrappers
  import opened AuthTypes
  import opened TokenUtils
  import opened VirtualDatabase
  import InputValidation

  /** A stored refresh token. */
  datatype TokenRecord = TokenRecord(refreshToken: Token)

  /** What the host has stored: its users and its refresh tokens, each in insertion order. */
  datatype Store = Store(users: seq<User>, tokens: seq<TokenRecord>)

  function EmailOf(u: User): string { u.email }
  function UsernameOf(u: User): string { u.username }
  function RefreshTokenOf(r: TokenRecord): Token { r.refreshToken }

  /** The first stored user with this e-mail address. */
  function UserByMail(s: Store, email: string): (r: Returned<Option<User>>)
    ensures !r.serverError
    ensures r.value.Some? ==> r.value.value in s.users && r.value.value.email == email
    ensures r.value.None? <==> forall u :: u in s.users ==> u.email != email
  {
    Returned(false, Find(s.users, EmailOf, email))
  }

  /** The first stored user with this username. */
  function UserByName(s: Store, username: string): (r: Returned<Option<User>>)
    ensures !r.serverError
    ensures r.value.Some? ==> r.value.value in s.users && r.value.value.username == username
    ensures r.value.None? <==> forall u :: u in s.users ==> u.username != username
  {
    Returned(false, Find(s.users, UsernameOf, username))
  }

  /** Whether this refresh token is stored. */
  function TokenExists(s: Store, refreshToken: Token): (r: Returned<bool>)
    ensures !r.serverError
    ensures r.value <==> TokenRecord(refreshToken) in s.tokens
  {
    var found := Find(s.tokens, RefreshTokenOf, refreshToken);
    assert found.Some? ==> found.value == TokenRecord(refreshToken);
    assert TokenRecord(refreshToken) in s.tokens ==> found.Some?;
    Returned(false, found.Some?)
  }

  /** The store after appending a user. */
  function WithUser(s: Store, user: User): (t: Store)
    ensures t.users == s.users + [user] && t.tokens == s.tokens
  {
    s.(users := s.users + [user])
  }

  /** The store after appending a refresh token. */
  function WithToken(s: Store, refreshToken: Token): (t: Store)
    ensures t.tokens == s.tokens + [TokenRecord(refreshToken)] && t.users == s.users
  {
    s.(tokens := s.tokens + [TokenRecord(refreshToken)])
  }

  /**
   * The store after deleting a refresh token: the first record of that token goes; when there is
   * none, the last record goes (the `splice(-1, 1)` of a failed search).
   */
  function WithoutToken(s: Store, refreshToken: Token): (t: Store)
    ensures t.users == s.users
    ensures t.tokens == SpliceOne(s.tokens, FirstIndex(s.tokens, RefreshTokenOf, refreshToken))
  {
    s.(tokens := SpliceOne(s.tokens, FirstIndex(s.tokens, RefreshTokenOf, refreshToken)))
  }

  /** Deleting a stored token removes its first record and keeps every other record in order. */
  lemma WithoutStoredToken(s: Store, refreshToken: Token)
    requires TokenRecord(refreshToken) in s.tokens
    ensures exists i :: (0 <= i < |s.tokens| && s.tokens[i] == TokenRecord(refreshToken)
      && TokenRecord(refreshToken) !in s.tokens[..i]
      && WithoutToken(s, refreshToken).tokens == s.tokens[..i] + s.tokens[i + 1..])
  {
    var i := FirstIndex(s.tokens, RefreshTokenOf, refreshToken);
    assert i >= 0 by {
      var j :| 0 <= j < |s.tokens| && s.tokens[j] == TokenRecord(refreshToken);
      assert RefreshTokenOf(s.tokens[j]) == refreshToken;
    }
    assert s.tokens[i] == TokenRecord(refreshToken);
    assert forall j :: 0 <= j < i ==> s.tokens[..i][j] != TokenRecord(refreshToken) by {
      forall j | 0 <= j < i
        ensures s.tokens[..i][j] != TokenRecord(refreshToken)
      {
        assert RefreshTokenOf(s.tokens[j]) != refreshToken;
      }
    }
  }

  /** Deleting a token that only the last store added gives back the store as it was before. */
  lemma WithoutNewToken(s: Store, refreshToken: Token)
    requires forall r :: r in s.tokens ==> r.refreshToken != refreshToken
    ensures WithoutToken(WithToken(s, refreshToken), refreshToken) == s
  {
    var s2 := WithToken(s, refreshToken);
    assert s2.tokens[|s.tokens|] == TokenRecord(refreshToken);
    forall j | 0 <= j < |s.tokens|
      ensures RefreshTokenOf(s2.tokens[j]) != refreshToken
    {
      assert s2.tokens[j] == s.tokens[j] && s.tokens[j] in s.tokens;
    }
    FirstIndexIsFirstMatch(s2.tokens, RefreshTokenOf, refreshToken, |s.tokens|);
    assert s2.tokens[..|s.tokens|] + s2.tokens[|s.tokens| + 1..] == s.tokens;
  }

  /** The example's e-mail rule: the address contains an `@`. */
  function MailAccepted(email: string): (r: Returned<bool>)
    ensures !r.serverError && (r.value <==> exists i :: 0 <= i < |email| && email[i] == '@')
  {
    Returned(false, '@' in email)
  }

  /** The example's password rule: at least 8 characters, whatever rules are configured. */
  function PasswordAccepted(password: string): (r: Returned<bool>)
    ensures !r.serverError && (r.value <==> |password| >= 8)
  {
    Returned(false, |password| >= 8)
  }

  /** The example's id: the number of stored users, in decimal. */
  function NextId(s: Store): (r: Returned<string>)
    ensures !r.serverError && r.value == InputValidation.DecimalString(|s.users|)
    ensures InputValidation.NumberOf(r.value) == Some(|s.users|)
  {
    InputValidation.DecimalRoundTrip(|s.users|);
    Returned(false, InputValidation.DecimalString(|s.users|))
  }

  /** While users are only ever appended, ids handed out at different store sizes differ. */
  lemma NextIdDistinct(s: Store, t: Store)
    requires |s.users| != |t.users|
    ensures NextId(s).value != NextId(t).value
  {
    InputValidation.DecimalRoundTrip(|s.users|);
    InputValidation.DecimalRoundTrip(|t.users|);
  }

  /** The example application: two tables and the callbacks it registers for every use event. */
  class Host {
    const users: Database<User>
    const refreshTokens: Database<TokenRecord>

    /** The two tables are separate objects. */
    predicate Valid() {
      users as object != refreshTokens as object
    }

    /** The host's state as a value. */
    function State(): Store
      reads users, refreshTokens
    {
      Store(users.data, refreshTokens.data)
    }

    /** The application starts with two empty tables. */
    constructor()
      ensures Valid() && fresh(users) && fresh(refreshTokens)
      ensures State() == Store([], [])
    {
      users := new Database();
      refreshTokens := new Database();
    }

    method GetUserByMail(email: string) returns (r: Returned<Option<User>>)
      ensures r == UserByMail(State(), email)
    {
      var user := users.FindOne(EmailOf, email);
      r := Returned(false, user);
    }

    method GetUserByName(username: string) returns (r: Returned<Option<User>>)
      ensures r == UserByName(State(), username)
    {
      var user := users.FindOne(UsernameOf, username);
      r := Returned(false, user);
    }

    method StoreUser(user: User) returns (r: Returned<()>)
      requires Valid()
      modifies users
      ensures r == Returned(false, ()) && State() == WithUser(old(State()), user)
    {
      users.StoreOne(user);
      r := Returned(false, ());
    }

    method CheckToken(refreshToken: Token) returns (r: Returned<bool>)
      ensures r == TokenExists(State(), refreshToken)
    {
      var stored := refreshTokens.Exists(RefreshTokenOf, refreshToken);
      r := Returned(false, stored);
    }

    method StoreToken(refreshToken: Token) returns (r: Returned<()>)
      requires Valid()
      modifies refreshTokens
      ensures r == Returned(false, ()) && State() == WithToken(old(State()), refreshToken)
    {
      refreshTokens.StoreOne(TokenRecord(refreshToken));
      r := Returned(false, ());
    }

    method DeleteToken(refreshToken: Token) returns (r: Returned<()>)
      requires Valid()
      modifies refreshTokens
      ensures r == Returned(false, ()) && State() == WithoutToken(old(State()), refreshToken)
    {
      refreshTokens.DeleteOne(RefreshTokenOf, refreshToken);
      r := Returned(false, ());
    }

    method GenId() returns (r: Returned<string>)
      ensures r == NextId(State())
    {
      var n := users.Items();
      r := Returned(false, InputValidation.DecimalString(n));
    }
  }
}
