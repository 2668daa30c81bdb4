/**
 * The combined lookup behind register and login: a login value is looked up as an e-mail address
 * first and as a username second.
 */
module CombinedLookup {
  import opened Wrappers
  import opened Senders
  import opened AuthTypes
  import opened ExampleHost
  import opened Auth

  /** The lookup's answer, the server error it sent itself (if any), and the hooks it invoked. */
  datatype LoginLookup = LoginLookup(result: Returned<Option<User>>, sent: Option<Response<Data>>, calls: seq<HookCall>)

  /** What the lookup of `login` yields against the tables `t` and the store `s`. */
  function LookupByLogin(t: HookTables, s: Store, login: string): (o: LoginLookup)
    requires TablesValid(t)
    ensures o.calls == [MailLookup(login)] || o.calls == [MailLookup(login), NameLookup(login)]
    ensures o.sent.Some? <==> o.result.serverError
    ensures o.sent.Some? ==> o.sent.value == SendAuthServerError()
    ensures o.result.serverError ==> o.result.value.None?
  {
    var byMail := RunGetUserByMail(t, s, login);
    if byMail.serverError then
      LoginLookup(Returned(true, None), Some(SendAuthServerError()), [MailLookup(login)])
    else
      var byName := RunGetUserByName(t, s, login);
      if byName.serverError then
        LoginLookup(Returned(true, None), Some(SendAuthServerError()), [MailLookup(login), NameLookup(login)])
      else
        LoginLookup(Returned(false, if byMail.value.Some? then byMail.value else byName.value), None,
                    [MailLookup(login), NameLookup(login)])
  }

  /** The combined lookup of `login` answered without error and found nobody. */
  predicate Unclaimed(t: HookTables, s: Store, login: string)
    requires TablesValid(t)
  {
    LookupByLogin(t, s, login).result == Returned(false, None)
  }

  /**
   * Looks `login` up by e-mail, then by username; a server error from either lookup is answered with
   * the reserved server error at once, and the username lookup is skipped after an e-mail failure.
   */
  method GetUserByLogin(auth: AuthInstance, login: string) returns (r: Returned<Option<User>>, sent: Option<Response<Data>>)
    requires auth.Valid()
    modifies auth`calls
    ensures var o := LookupByLogin(auth.Tables(), auth.State(), login);
      r == o.result && sent == o.sent && auth.calls == old(auth.calls) + o.calls
  {
    var byMail := auth.InvokeGetUserByMail(login);
    if byMail.serverError {
      return Returned(true, None), Some(SendAuthServerError());
    }
    var byName := auth.InvokeGetUserByName(login);
    if byName.serverError {
      return Returned(true, None), Some(SendAuthServerError());
    }
    r := Returned(false, if byMail.value.Some? then byMail.value else byName.value);
    sent := None;
  }

  /** A failed e-mail lookup ends the helper: the username lookup never runs. */
  lemma MailErrorSkipsNameLookup(t: HookTables, s: Store, login: string)
    requires TablesValid(t) && RunGetUserByMail(t, s, login).serverError
    ensures LookupByLogin(t, s, login) == LoginLookup(Returned(true, None), Some(SendAuthServerError()), [MailLookup(login)])
  {
  }

  /** With both lookups answering, the e-mail match wins, and there is no user only when neither found one. */
  lemma MailMatchWins(t: HookTables, s: Store, login: string)
    requires TablesValid(t)
    requires !RunGetUserByMail(t, s, login).serverError && !RunGetUserByName(t, s, login).serverError
    ensures var o := LookupByLogin(t, s, login);
      && !o.result.serverError && o.sent.None?
      && (RunGetUserByMail(t, s, login).value.Some? ==> o.result.value == RunGetUserByMail(t, s, login).value)
      && (RunGetUserByMail(t, s, login).value.None? ==> o.result.value == RunGetUserByName(t, s, login).value)
      && (o.result.value.None? <==> RunGetUserByMail(t, s, login).value.None? && RunGetUserByName(t, s, login).value.None?)
  {
  }

  /**
   * Against the example application's tables, the lookup finds a stored user whose e-mail address or
   * username is `login`, and finds none exactly when no stored user has either.
   */
  lemma ExampleLookup(t: HookTables, s: Store, login: string)
    requires TablesValid(t) && t.use[GetUserByMail] == Host(Example) && t.use[GetUserByName] == Host(Example)
    ensures var o := LookupByLogin(t, s, login);
      && !o.result.serverError
      && (o.result.value.Some? ==> (o.result.value.value in s.users
            && (o.result.value.value.email == login || o.result.value.value.username == login)))
      && (o.result.value.None? <==> forall u :: u in s.users ==> u.email != login && u.username != login)
  {
    var byMail := UserByMail(s, login);
    var byName := UserByName(s, login);
    assert RunGetUserByMail(t, s, login) == byMail;
    assert RunGetUserByName(t, s, login) == byName;
  }
}
