/** The records the engine exchanges with its host, and the names of its hooks. */
module AuthTypes {
  import opened Wrappers
  import opened TokenUtils
  import InputValidation

  /** A user as the engine stores and looks it up. */
  datatype User = User(id: string, email: string, username: string, hashedPassword: string)

  /** The events a host can supply a callback for with `use`. */
  datatype UseEvent =
    | GetUserByMail | GetUserByName | StoreUser | CheckToken | StoreToken | DeleteToken
    | ValidateMail | ValidatePassword | HashPassword | GenId | CheckPassword

  /** The events whose slot starts out with a callback that only reports a server error. */
  predicate IsRequired(e: UseEvent) {
    e in {GetUserByMail, GetUserByName, StoreUser, CheckToken, StoreToken, DeleteToken}
  }

  /** The events a host can veto with `intercept`, one per flow. */
  datatype InterceptEvent = OnRegister | OnLogin | OnLogout | OnRefresh | OnCheck

  /** What a use callback returns: the server-error flag and the event's own result. */
  datatype Returned<R> = Returned(serverError: bool, value: R)

  /** What an intercept callback returns. */
  datatype InterceptResult = InterceptResult(serverError: bool, intercepted: bool, interceptCode: int)

  /** What an intercept callback is shown, one shape per flow. */
  datatype InterceptData =
    | RegisterData(user: User)
    | LoginData(user: User, accessToken: Token, refreshToken: Token, payload: TokenPayload)
    | LogoutData(refreshToken: Token, payload: TokenPayload)
    | RefreshData(refreshToken: Token, payload: TokenPayload)
    | CheckData(accessToken: Token, refreshToken: Token, payload: TokenPayload)

  /** The intercept event an intercept input belongs to. */
  function EventOf(data: InterceptData): (e: InterceptEvent)
    ensures data.RegisterData? <==> e == OnRegister
    ensures data.LoginData? <==> e == OnLogin
    ensures data.LogoutData? <==> e == OnLogout
    ensures data.RefreshData? <==> e == OnRefresh
    ensures data.CheckData? <==> e == OnCheck
  {
    match data
    case RegisterData(_) => OnRegister
    case LoginData(_, _, _, _) => OnLogin
    case LogoutData(_, _) => OnLogout
    case RefreshData(_, _) => OnRefresh
    case CheckData(_, _, _) => OnCheck
  }

  /** One invocation of a hook, with the arguments it was given. */
  datatype HookCall =
    | MailLookup(email: string)
    | NameLookup(username: string)
    | UserStore(user: User)
    | TokenCheck(refreshToken: Token)
    | TokenStore(refreshToken: Token)
    | TokenDeletion(refreshToken: Token)
    | MailValidation(email: string)
    | PasswordValidation(password: string, passwordRules: string, parsedPasswordRules: InputValidation.PasswordRules)
    | PasswordHashing(password: string)
    | IdGeneration(email: string, username: string)
    | PasswordCheck(password: string, hashedPassword: string)
    | Interception(data: InterceptData)

  /** The use event a hook invocation belongs to, or none for an intercept. */
  function UseEventOf(c: HookCall): (e: Option<UseEvent>)
    ensures e.None? <==> c.Interception?
  {
    match c
    case MailLookup(_) => Some(GetUserByMail)
    case NameLookup(_) => Some(GetUserByName)
    case UserStore(_) => Some(StoreUser)
    case TokenCheck(_) => Some(CheckToken)
    case TokenStore(_) => Some(StoreToken)
    case TokenDeletion(_) => Some(DeleteToken)
    case MailValidation(_) => Some(ValidateMail)
    case PasswordValidation(_, _, _) => Some(ValidatePassword)
    case PasswordHashing(_) => Some(HashPassword)
    case IdGeneration(_, _) => Some(GenId)
    case PasswordCheck(_, _) => Some(CheckPassword)
    case Interception(_) => None
  }

  /** The trace never invoked the hook of use event `e`. */
  predicate Avoids(calls: seq<HookCall>, e: UseEvent) {
    forall call :: call in calls ==> UseEventOf(call) != Some(e)
  }

  /** A concatenated trace avoids a hook exactly when both its parts do. */
  lemma AvoidsConcat(a: seq<HookCall>, b: seq<HookCall>, e: UseEvent)
    ensures Avoids(a + b, e) <==> Avoids(a, e) && Avoids(b, e)
  {
  }

  /** The data a successful answer carries. */
  datatype Data =
    | UserInfo(id: string, email: string, username: string)
    | TokenPair(accessToken: Token, refreshToken: Token)
    | AccessToken(accessToken: Token)
}
