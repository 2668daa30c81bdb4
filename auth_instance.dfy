/**
 * The engine instance: its configuration with every default filled in, the table of use slots and
 * the table of intercept slots, and the calls through which the flows reach the hooks.
 */
module Auth {
  import opened Wrappers
  import opened Senders
  import opened TokenUtils
  import opened AuthTypes
  import opened ExampleHost
  import Events
  import InputValidation
  import Security

  /** Whether a flow's route answers, answers with "disabled", or is not mounted at all. */
  datatype RouteState = Active | Disabled | Removed

  /** The route states a host may give, each optional. */
  datatype RouteOptions = RouteOptions(
    register: Option<RouteState>, login: Option<RouteState>, logout: Option<RouteState>,
    refresh: Option<RouteState>, check: Option<RouteState>)

  /** The configuration a host passes in; every field but the two secrets is optional. */
  datatype AuthConfig = AuthConfig(
    accessTokenSecret: string,
    refreshTokenSecret: string,
    expiresIn: Option<int>,
    passwordValidation: Option<bool>,
    passwordValidationRules: Option<string>,
    emailValidation: Option<bool>,
    sensitiveApi: Option<bool>,
    sensitiveLogs: Option<bool>,
    routes: Option<RouteOptions>)

  datatype Routes = Routes(register: RouteState, login: RouteState, logout: RouteState, refresh: RouteState, check: RouteState)

  /** The configuration the flows read, with every field present. */
  datatype Config = Config(
    accessTokenSecret: string,
    refreshTokenSecret: string,
    expiresIn: int,
    passwordValidation: bool,
    passwordValidationRules: string,
    emailValidation: bool,
    sensitiveApi: bool,
    sensitiveLogs: bool,
    routes: Routes)

  const DefaultExpiresIn := 900

  /** `value ?? fallback`: the given value when there is one, even `false` or 0. */
  function Coalesce<T>(value: Option<T>, fallback: T): (r: T)
    ensures value.Some? ==> r == value.value
    ensures value.None? ==> r == fallback
  {
    value.GetOr(fallback)
  }

  /** The route states, each "active" unless given. */
  function ResolveRoutes(routes: Option<RouteOptions>): (r: Routes)
    ensures routes.None? ==> r == Routes(Active, Active, Active, Active, Active)
    ensures routes.Some? ==> r == Routes(
      Coalesce(routes.value.register, Active), Coalesce(routes.value.login, Active),
      Coalesce(routes.value.logout, Active), Coalesce(routes.value.refresh, Active),
      Coalesce(routes.value.check, Active))
  {
    match routes
    case None => Routes(Active, Active, Active, Active, Active)
    case Some(o) =>
      Routes(Coalesce(o.register, Active), Coalesce(o.login, Active), Coalesce(o.logout, Active),
             Coalesce(o.refresh, Active), Coalesce(o.check, Active))
  }

  /** The configuration built once, field by field, from what the host gave and the defaults. */
  function ResolveConfig(c: AuthConfig): (r: Config)
    ensures r.accessTokenSecret == c.accessTokenSecret && r.refreshTokenSecret == c.refreshTokenSecret
    ensures r.expiresIn == Coalesce(c.expiresIn, DefaultExpiresIn)
    ensures r.passwordValidation == Coalesce(c.passwordValidation, true)
    ensures r.passwordValidationRules == Coalesce(c.passwordValidationRules, InputValidation.DefaultRuleDescriptor)
    ensures r.emailValidation == Coalesce(c.emailValidation, true)
    ensures r.sensitiveApi == Coalesce(c.sensitiveApi, true)
    ensures r.sensitiveLogs == Coalesce(c.sensitiveLogs, false)
    ensures r.routes == ResolveRoutes(c.routes)
  {
    Config(
      c.accessTokenSecret,
      c.refreshTokenSecret,
      Coalesce(c.expiresIn, DefaultExpiresIn),
      Coalesce(c.passwordValidation, true),
      Coalesce(c.passwordValidationRules, InputValidation.DefaultRuleDescriptor),
      Coalesce(c.emailValidation, true),
      Coalesce(c.sensitiveApi, true),
      Coalesce(c.sensitiveLogs, false),
      ResolveRoutes(c.routes))
  }

  /** A full configuration written out as host options, every field given. */
  function Explicit(k: Config): (c: AuthConfig)
    ensures c.accessTokenSecret == k.accessTokenSecret && c.refreshTokenSecret == k.refreshTokenSecret
  {
    AuthConfig(k.accessTokenSecret, k.refreshTokenSecret, Some(k.expiresIn), Some(k.passwordValidation),
      Some(k.passwordValidationRules), Some(k.emailValidation), Some(k.sensitiveApi), Some(k.sensitiveLogs),
      Some(RouteOptions(Some(k.routes.register), Some(k.routes.login), Some(k.routes.logout),
        Some(k.routes.refresh), Some(k.routes.check))))
  }

  /** A value that is given always wins over its default, so explicit `false` and 0 survive. */
  lemma ExplicitValuesKept(k: Config)
    ensures ResolveConfig(Explicit(k)) == k
  {
  }

  /** Only the secrets given: every other field takes its documented default. */
  lemma SecretsOnlyDefaults(accessTokenSecret: string, refreshTokenSecret: string)
    ensures ResolveConfig(AuthConfig(accessTokenSecret, refreshTokenSecret, None, None, None, None, None, None, None))
      == Config(accessTokenSecret, refreshTokenSecret, 900, true, "Y-Y-Y-N-8", true, true, false,
                Routes(Active, Active, Active, Active, Active))
  {
  }

  /** Each route state is resolved on its own: changing one leaves the others' resolved states alone. */
  lemma RouteStatesIndependent(o: RouteOptions, s: Option<RouteState>)
    ensures var r := ResolveRoutes(Some(o));
      && ResolveRoutes(Some(o.(register := s))) == r.(register := Coalesce(s, Active))
      && ResolveRoutes(Some(o.(login := s))) == r.(login := Coalesce(s, Active))
      && ResolveRoutes(Some(o.(logout := s))) == r.(logout := Coalesce(s, Active))
      && ResolveRoutes(Some(o.(refresh := s))) == r.(refresh := Coalesce(s, Active))
      && ResolveRoutes(Some(o.(check := s))) == r.(check := Coalesce(s, Active))
  {
  }

  /** What a host can register for a use event: the example application's callback, or one that reports a server error. */
  datatype HostHook = Example | Failing

  /** A use slot: the library's failing placeholder, the library's default, or a host callback. */
  datatype UseSlot = Unset | Default | Host(hook: HostHook)

  /** An intercept slot: the pass-through placeholder, or a host callback deciding on the flow's data. */
  datatype InterceptSlot = PassThrough | Intercepting(decide: InterceptData -> InterceptResult)

  /** The two hook tables. */
  datatype HookTables = HookTables(use: map<UseEvent, UseSlot>, intercept: map<InterceptEvent, InterceptSlot>)

  /**
   * Every event has a slot; a required event never holds a library default, an optional one never the
   * failing placeholder.
   */
  predicate TablesValid(t: HookTables) {
    && (forall e: UseEvent :: e in t.use)
    && (forall e: InterceptEvent :: e in t.intercept)
    && (forall e: UseEvent :: IsRequired(e) ==> t.use[e] != Default)
    && (forall e: UseEvent :: !IsRequired(e) ==> t.use[e] != Unset)
  }

  const AllUseEvents: set<UseEvent> :=
    {GetUserByMail, GetUserByName, StoreUser, CheckToken, StoreToken, DeleteToken,
     ValidateMail, ValidatePassword, HashPassword, GenId, CheckPassword}

  const AllInterceptEvents: set<InterceptEvent> := {OnRegister, OnLogin, OnLogout, OnRefresh, OnCheck}

  /** The event sets above list every event. */
  lemma EventsListed()
    ensures forall e: UseEvent :: e in AllUseEvents
    ensures forall e: InterceptEvent :: e in AllInterceptEvents
  {
    forall e: UseEvent
      ensures e in AllUseEvents
    {
      match e
      case GetUserByMail =>
      case GetUserByName =>
      case StoreUser =>
      case CheckToken =>
      case StoreToken =>
      case DeleteToken =>
      case ValidateMail =>
      case ValidatePassword =>
      case HashPassword =>
      case GenId =>
      case CheckPassword =>
    }
    forall e: InterceptEvent
      ensures e in AllInterceptEvents
    {
      match e
      case OnRegister =>
      case OnLogin =>
      case OnLogout =>
      case OnRefresh =>
      case OnCheck =>
    }
  }

  /** The callback a use slot starts with: the failing placeholder for required events, the library default otherwise. */
  function InitialUseSlot(e: UseEvent): (slot: UseSlot)
    ensures IsRequired(e) <==> slot == Unset
    ensures !IsRequired(e) <==> slot == Default
  {
    if IsRequired(e) then Unset else Default
  }

  /** The tables of a fresh instance. */
  function InitialTables(): (t: HookTables)
    ensures TablesValid(t)
    ensures forall e: UseEvent :: IsRequired(e) ==> t.use[e] == Unset
    ensures forall e: UseEvent :: !IsRequired(e) ==> t.use[e] == Default
    ensures forall e: InterceptEvent :: t.intercept[e] == PassThrough
  {
    EventsListed();
    HookTables(
      map e | e in AllUseEvents :: InitialUseSlot(e),
      map e | e in AllInterceptEvents :: PassThrough)
  }

  /** The tables after `use(e, hook)`. */
  function WithUse(t: HookTables, e: UseEvent, hook: HostHook): (r: HookTables)
    ensures r.intercept == t.intercept
    ensures e in r.use && r.use[e] == Host(hook)
    ensures forall f :: f != e ==> (f in r.use <==> f in t.use) && (f in t.use ==> r.use[f] == t.use[f])
  {
    t.(use := t.use[e := Host(hook)])
  }

  /** The tables after `intercept(e, decide)`. */
  function WithIntercept(t: HookTables, e: InterceptEvent, decide: InterceptData -> InterceptResult): (r: HookTables)
    ensures r.use == t.use
    ensures e in r.intercept && r.intercept[e] == Intercepting(decide)
    ensures forall f :: f != e ==> (f in r.intercept <==> f in t.intercept) && (f in t.intercept ==> r.intercept[f] == t.intercept[f])
  {
    t.(intercept := t.intercept[e := Intercepting(decide)])
  }

  /** Registration keeps the tables valid. */
  lemma RegistrationKeepsValid(t: HookTables, e: UseEvent, hook: HostHook, f: InterceptEvent, decide: InterceptData -> InterceptResult)
    requires TablesValid(t)
    ensures TablesValid(WithUse(t, e, hook)) && TablesValid(WithIntercept(t, f, decide))
  {
    var u := WithUse(t, e, hook);
    assert forall g: UseEvent :: g in u.use && (g != e ==> u.use[g] == t.use[g]);
  }

  /** Of two registrations for the same event, the last one wins. */
  lemma LastRegistrationWins(t: HookTables, e: UseEvent, first: HostHook, second: HostHook)
    ensures WithUse(WithUse(t, e, first), e, second) == WithUse(t, e, second)
  {
  }

  /** Registrations for different events do not interfere. */
  lemma RegistrationsCommute(t: HookTables, e: UseEvent, a: HostHook, f: UseEvent, b: HostHook)
    requires e != f
    ensures WithUse(WithUse(t, e, a), f, b) == WithUse(WithUse(t, f, b), e, a)
  {
    assert WithUse(WithUse(t, e, a), f, b).use == WithUse(WithUse(t, f, b), e, a).use;
  }

  /** The foreign facilities the library defaults call: the clock, uuid and bcrypt (`None` is a thrown failure). */
  datatype Foreign = Foreign(
    now: int,
    uuid: string,
    bcryptHash: string -> Option<string>,
    bcryptCompare: (string, string) -> Option<bool>)

  /** A store-changing hook's answer and the store it leaves. */
  datatype Stored = Stored(result: Returned<()>, store: Store)

  /** What the `getUserByMail` slot answers. */
  function RunGetUserByMail(t: HookTables, s: Store, email: string): (r: Returned<Option<User>>)
    requires TablesValid(t)
    ensures r.serverError ==> r.value.None?
    ensures t.use[GetUserByMail] == Host(Example) ==> r == UserByMail(s, email)
    ensures t.use[GetUserByMail] != Host(Example) ==> r.serverError
  {
    match t.use[GetUserByMail]
    case Unset => Events.UndefinedUseEvent(None)
    case Host(Example) => UserByMail(s, email)
    case Host(Failing) => Returned(true, None)
  }

  /** What the `getUserByName` slot answers. */
  function RunGetUserByName(t: HookTables, s: Store, username: string): (r: Returned<Option<User>>)
    requires TablesValid(t)
    ensures r.serverError ==> r.value.None?
    ensures t.use[GetUserByName] == Host(Example) ==> r == UserByName(s, username)
    ensures t.use[GetUserByName] != Host(Example) ==> r.serverError
  {
    match t.use[GetUserByName]
    case Unset => Events.UndefinedUseEvent(None)
    case Host(Example) => UserByName(s, username)
    case Host(Failing) => Returned(true, None)
  }

  /** What the `storeUser` slot answers, and the store it leaves. */
  function RunStoreUser(t: HookTables, s: Store, user: User): (r: Stored)
    requires TablesValid(t)
    ensures r.result.serverError ==> r.store == s
    ensures !r.result.serverError ==> r.store == WithUser(s, user)
  {
    match t.use[StoreUser]
    case Unset => Stored(Events.UndefinedUseEvent(()), s)
    case Host(Example) => Stored(Returned(false, ()), WithUser(s, user))
    case Host(Failing) => Stored(Returned(true, ()), s)
  }

  /** What the `checkToken` slot answers. */
  function RunCheckToken(t: HookTables, s: Store, refreshToken: Token): (r: Returned<bool>)
    requires TablesValid(t)
    ensures r.serverError ==> !r.value
    ensures !r.serverError ==> (r.value <==> TokenRecord(refreshToken) in s.tokens)
  {
    match t.use[CheckToken]
    case Unset => Events.UndefinedUseEvent(false)
    case Host(Example) => TokenExists(s, refreshToken)
    case Host(Failing) => Returned(true, false)
  }

  /** What the `storeToken` slot answers, and the store it leaves. */
  function RunStoreToken(t: HookTables, s: Store, refreshToken: Token): (r: Stored)
    requires TablesValid(t)
    ensures r.result.serverError ==> r.store == s
    ensures !r.result.serverError ==> r.store == WithToken(s, refreshToken)
  {
    match t.use[StoreToken]
    case Unset => Stored(Events.UndefinedUseEvent(()), s)
    case Host(Example) => Stored(Returned(false, ()), WithToken(s, refreshToken))
    case Host(Failing) => Stored(Returned(true, ()), s)
  }

  /** What the `deleteToken` slot answers, and the store it leaves. */
  function RunDeleteToken(t: HookTables, s: Store, refreshToken: Token): (r: Stored)
    requires TablesValid(t)
    ensures r.result.serverError ==> r.store == s
    ensures !r.result.serverError ==> r.store == WithoutToken(s, refreshToken)
  {
    match t.use[DeleteToken]
    case Unset => Stored(Events.UndefinedUseEvent(()), s)
    case Host(Example) => Stored(Returned(false, ()), WithoutToken(s, refreshToken))
    case Host(Failing) => Stored(Returned(true, ()), s)
  }

  /** What the `validateMail` slot answers. */
  function RunValidateMail(t: HookTables, email: string): (r: Returned<bool>)
    requires TablesValid(t)
    ensures t.use[ValidateMail] == Default ==> r == Events.DefaultUseValidateMail(email)
    ensures t.use[ValidateMail] == Host(Example) ==> r == MailAccepted(email)
    ensures r.serverError <==> t.use[ValidateMail] == Host(Failing)
  {
    match t.use[ValidateMail]
    case Default => Events.DefaultUseValidateMail(email)
    case Host(Example) => MailAccepted(email)
    case Host(Failing) => Returned(true, false)
  }

  /** What the `validatePassword` slot answers. */
  function RunValidatePassword(t: HookTables, password: string, passwordRules: string, parsed: InputValidation.PasswordRules): (r: Returned<bool>)
    requires TablesValid(t)
    ensures t.use[ValidatePassword] == Default ==> r == Events.DefaultUseValidatePassword(password, passwordRules, parsed)
    ensures t.use[ValidatePassword] == Host(Example) ==> r == PasswordAccepted(password)
    ensures r.serverError <==> t.use[ValidatePassword] == Host(Failing)
  {
    match t.use[ValidatePassword]
    case Default => Events.DefaultUseValidatePassword(password, passwordRules, parsed)
    case Host(Example) => PasswordAccepted(password)
    case Host(Failing) => Returned(true, false)
  }

  /** What the `hashPassword` slot answers. */
  function RunHashPassword(t: HookTables, env: Foreign, password: string): (r: Returned<string>)
    requires TablesValid(t)
    ensures t.use[HashPassword] == Default ==> r == Events.DefaultUseHashPassword(env.bcryptHash, password)
    ensures t.use[HashPassword] == Host(Example) ==> r == Returned(false, Security.Hash(password))
    ensures t.use[HashPassword] == Host(Failing) ==> r.serverError
  {
    match t.use[HashPassword]
    case Default => Events.DefaultUseHashPassword(env.bcryptHash, password)
    case Host(Example) => Returned(false, Security.Hash(password))
    case Host(Failing) => Returned(true, "")
  }

  /** What the `genId` slot answers. */
  function RunGenId(t: HookTables, env: Foreign, s: Store, email: string, username: string): (r: Returned<string>)
    requires TablesValid(t)
    ensures t.use[GenId] == Default ==> r == Events.DefaultUseGenId(env.uuid)
    ensures t.use[GenId] == Host(Example) ==> r == NextId(s)
    ensures r.serverError <==> t.use[GenId] == Host(Failing)
  {
    match t.use[GenId]
    case Default => Events.DefaultUseGenId(env.uuid)
    case Host(Example) => NextId(s)
    case Host(Failing) => Returned(true, "")
  }

  /** What the `checkPassword` slot answers. */
  function RunCheckPassword(t: HookTables, env: Foreign, password: string, hashedPassword: string): (r: Returned<bool>)
    requires TablesValid(t)
    ensures t.use[CheckPassword] == Default ==> r == Events.DefaultUseCheckPassword(env.bcryptCompare, password, hashedPassword)
    ensures t.use[CheckPassword] == Host(Example) ==> r == Returned(false, Security.Compare(password, hashedPassword))
    ensures t.use[CheckPassword] == Host(Failing) ==> r.serverError && !r.value
  {
    match t.use[CheckPassword]
    case Default => Events.DefaultUseCheckPassword(env.bcryptCompare, password, hashedPassword)
    case Host(Example) => Returned(false, Security.Compare(password, hashedPassword))
    case Host(Failing) => Returned(true, false)
  }

  /** What the intercept slot of the data's flow answers. */
  function RunIntercept(t: HookTables, data: InterceptData): (r: InterceptResult)
    requires TablesValid(t)
    ensures t.intercept[EventOf(data)] == PassThrough ==> r == InterceptResult(false, false, 0)
    ensures t.intercept[EventOf(data)].Intercepting? ==> r == t.intercept[EventOf(data)].decide(data)
  {
    match t.intercept[EventOf(data)]
    case PassThrough => Events.UndefinedInterceptEvent(data)
    case Intercepting(decide) => decide(data)
  }

  /** A fresh instance answers every required hook with a server error, whatever the store. */
  lemma FreshRequiredHooksFail(s: Store, login: string, user: User, token: Token)
    ensures var t := InitialTables();
      && RunGetUserByMail(t, s, login) == Returned(true, None)
      && RunGetUserByName(t, s, login) == Returned(true, None)
      && RunStoreUser(t, s, user) == Stored(Returned(true, ()), s)
      && RunCheckToken(t, s, token) == Returned(true, false)
      && RunStoreToken(t, s, token) == Stored(Returned(true, ()), s)
      && RunDeleteToken(t, s, token) == Stored(Returned(true, ()), s)
  {
  }

  /** A request body field that is present and not the empty string. */
  predicate Present(field: Option<string>) {
    field.Some? && field.value != ""
  }

  /** What running a flow amounts to: the answer, the store it leaves, and the hooks it invoked, in order. */
  datatype Outcome = Outcome(response: Response<Data>, store: Store, calls: seq<HookCall>)

  /** An outcome reached after the hooks `calls` were invoked. */
  function Prefixed(calls: seq<HookCall>, o: Outcome): (r: Outcome)
    ensures r.response == o.response && r.store == o.store && r.calls == calls + o.calls
  {
    o.(calls := calls + o.calls)
  }

  /** Where a stage of a flow leaves it: answered, or passed on after invoking `calls`; no stage but the last changes the store. */
  datatype Step = Finished(response: Response<Data>, calls: seq<HookCall>) | Continue(calls: seq<HookCall>)

  /** Concatenating traces is associative. */
  lemma TraceAssociative(a: seq<HookCall>, b: seq<HookCall>, c: seq<HookCall>)
    ensures (a + b) + c == a + (b + c)
  {
  }

  /** Every call of a concatenated trace is a call of one of its parts. */
  lemma CallsAfter(a: seq<HookCall>, b: seq<HookCall>)
    ensures forall i :: 0 <= i < |a + b| ==> (if i < |a| then (a + b)[i] == a[i] else (a + b)[i] == b[i - |a|])
  {
  }

  /** The last call of a trace whose second part is not empty is that part's last call. */
  lemma LastCallAfter(a: seq<HookCall>, b: seq<HookCall>)
    requires |b| > 0
    ensures (a + b)[|a + b| - 1] == b[|b| - 1]
  {
  }

  /** An early answer a handler stage gives, or none, agrees with where the stage leaves the flow. */
  predicate Answers(answer: Option<Response<Data>>, step: Step) {
    match step
    case Finished(response, _) => answer == Some(response)
    case Continue(_) => answer.None?
  }

  /** A stage followed by the rest of the flow. */
  function Then(s: Store, step: Step, rest: Outcome): (o: Outcome)
    ensures step.Finished? ==> o == Outcome(step.response, s, step.calls)
    ensures step.Continue? ==> o == Prefixed(step.calls, rest)
  {
    match step
    case Finished(response, calls) => Outcome(response, s, calls)
    case Continue(calls) => Prefixed(calls, rest)
  }

  /**
   * An engine instance. The flows read the tables through the instance at the time they run, so a
   * registration made after construction is what they call. `calls` records every hook invocation.
   */
  class AuthInstance {
    const config: Config
    var useSlots: map<UseEvent, UseSlot>
    var interceptSlots: map<InterceptEvent, InterceptSlot>
    const host: ExampleHost.Host
    ghost var calls: seq<HookCall>

    predicate Valid()
      reads this`useSlots, this`interceptSlots
    {
      TablesValid(Tables()) && host.Valid()
    }

    function Tables(): HookTables
      reads this`useSlots, this`interceptSlots
    {
      HookTables(useSlots, interceptSlots)
    }

    /** What the host has stored. */
    function State(): Store
      reads host.users, host.refreshTokens
    {
      host.State()
    }

    /** Resolves the configuration once and fills both tables with their initial callbacks. */
    constructor(config: AuthConfig, host: ExampleHost.Host)
      requires host.Valid()
      ensures Valid()
      ensures this.config == ResolveConfig(config) && this.host == host
      ensures Tables() == InitialTables() && calls == []
    {
      this.config := ResolveConfig(config);
      this.host := host;
      var t := InitialTables();
      useSlots := t.use;
      interceptSlots := t.intercept;
      calls := [];
    }

    /** Registers a host callback for one use event, replacing what the slot held. */
    method Use(e: UseEvent, hook: HostHook)
      requires Valid()
      modifies this`useSlots
      ensures Valid()
      ensures Tables() == WithUse(old(Tables()), e, hook)
    {
      RegistrationKeepsValid(Tables(), e, hook, OnRegister, Events.UndefinedInterceptEvent);
      useSlots := useSlots[e := Host(hook)];
    }

    /** Registers a host callback for one intercept event, replacing what the slot held. */
    method Intercept(e: InterceptEvent, decide: InterceptData -> InterceptResult)
      requires Valid()
      modifies this`interceptSlots
      ensures Valid()
      ensures Tables() == WithIntercept(old(Tables()), e, decide)
    {
      RegistrationKeepsValid(Tables(), GetUserByMail, Example, e, decide);
      interceptSlots := interceptSlots[e := Intercepting(decide)];
    }

    method InvokeGetUserByMail(email: string) returns (r: Returned<Option<User>>)
      requires Valid()
      modifies this`calls
      ensures r == RunGetUserByMail(Tables(), State(), email)
      ensures calls == old(calls) + [MailLookup(email)]
    {
      match useSlots[GetUserByMail] {
      case Unset => r := Events.UndefinedUseEvent(None);
      case Host(Example) => r := host.GetUserByMail(email);
      case Host(Failing) => r := Returned(true, None);
      }
      calls := calls + [MailLookup(email)];
    }

    method InvokeGetUserByName(username: string) returns (r: Returned<Option<User>>)
      requires Valid()
      modifies this`calls
      ensures r == RunGetUserByName(Tables(), State(), username)
      ensures calls == old(calls) + [NameLookup(username)]
    {
      match useSlots[GetUserByName] {
      case Unset => r := Events.UndefinedUseEvent(None);
      case Host(Example) => r := host.GetUserByName(username);
      case Host(Failing) => r := Returned(true, None);
      }
      calls := calls + [NameLookup(username)];
    }

    method InvokeStoreUser(user: User) returns (r: Returned<()>)
      requires Valid()
      modifies this`calls, host.users
      ensures var o := RunStoreUser(Tables(), old(State()), user); r == o.result && State() == o.store
      ensures calls == old(calls) + [UserStore(user)]
    {
      match useSlots[StoreUser] {
      case Unset => r := Events.UndefinedUseEvent(());
      case Host(Example) => r := host.StoreUser(user);
      case Host(Failing) => r := Returned(true, ());
      }
      calls := calls + [UserStore(user)];
    }

    method InvokeCheckToken(refreshToken: Token) returns (r: Returned<bool>)
      requires Valid()
      modifies this`calls
      ensures r == RunCheckToken(Tables(), State(), refreshToken)
      ensures calls == old(calls) + [TokenCheck(refreshToken)]
    {
      match useSlots[CheckToken] {
      case Unset => r := Events.UndefinedUseEvent(false);
      case Host(Example) => r := host.CheckToken(refreshToken);
      case Host(Failing) => r := Returned(true, false);
      }
      calls := calls + [TokenCheck(refreshToken)];
    }

    method InvokeStoreToken(refreshToken: Token) returns (r: Returned<()>)
      requires Valid()
      modifies this`calls, host.refreshTokens
      ensures var o := RunStoreToken(Tables(), old(State()), refreshToken); r == o.result && State() == o.store
      ensures calls == old(calls) + [TokenStore(refreshToken)]
    {
      match useSlots[StoreToken] {
      case Unset => r := Events.UndefinedUseEvent(());
      case Host(Example) => r := host.StoreToken(refreshToken);
      case Host(Failing) => r := Returned(true, ());
      }
      calls := calls + [TokenStore(refreshToken)];
    }

    method InvokeDeleteToken(refreshToken: Token) returns (r: Returned<()>)
      requires Valid()
      modifies this`calls, host.refreshTokens
      ensures var o := RunDeleteToken(Tables(), old(State()), refreshToken); r == o.result && State() == o.store
      ensures calls == old(calls) + [TokenDeletion(refreshToken)]
    {
      match useSlots[DeleteToken] {
      case Unset => r := Events.UndefinedUseEvent(());
      case Host(Example) => r := host.DeleteToken(refreshToken);
      case Host(Failing) => r := Returned(true, ());
      }
      calls := calls + [TokenDeletion(refreshToken)];
    }

    method InvokeValidateMail(email: string) returns (r: Returned<bool>)
      requires Valid()
      modifies this`calls
      ensures r == RunValidateMail(Tables(), email)
      ensures calls == old(calls) + [MailValidation(email)]
    {
      match useSlots[ValidateMail] {
      case Default => r := Events.DefaultUseValidateMail(email);
      case Host(Example) => r := MailAccepted(email);
      case Host(Failing) => r := Returned(true, false);
      }
      calls := calls + [MailValidation(email)];
    }

    method InvokeValidatePassword(password: string, passwordRules: string, parsed: InputValidation.PasswordRules) returns (r: Returned<bool>)
      requires Valid()
      modifies this`calls
      ensures r == RunValidatePassword(Tables(), password, passwordRules, parsed)
      ensures calls == old(calls) + [PasswordValidation(password, passwordRules, parsed)]
    {
      match useSlots[UseEvent.ValidatePassword] {
      case Default =>
        var valid := InputValidation.ValidatePassword(password, passwordRules);
        r := Returned(false, valid);
      case Host(Example) => r := PasswordAccepted(password);
      case Host(Failing) => r := Returned(true, false);
      }
      calls := calls + [PasswordValidation(password, passwordRules, parsed)];
    }

    method InvokeHashPassword(env: Foreign, password: string) returns (r: Returned<string>)
      requires Valid()
      modifies this`calls
      ensures r == RunHashPassword(Tables(), env, password)
      ensures calls == old(calls) + [PasswordHashing(password)]
    {
      match useSlots[HashPassword] {
      case Default => r := Events.DefaultUseHashPassword(env.bcryptHash, password);
      case Host(Example) => r := Returned(false, Security.Hash(password));
      case Host(Failing) => r := Returned(true, "");
      }
      calls := calls + [PasswordHashing(password)];
    }

    method InvokeGenId(env: Foreign, email: string, username: string) returns (r: Returned<string>)
      requires Valid()
      modifies this`calls
      ensures r == RunGenId(Tables(), env, State(), email, username)
      ensures calls == old(calls) + [IdGeneration(email, username)]
    {
      match useSlots[GenId] {
      case Default => r := Events.DefaultUseGenId(env.uuid);
      case Host(Example) => r := host.GenId();
      case Host(Failing) => r := Returned(true, "");
      }
      calls := calls + [IdGeneration(email, username)];
    }

    method InvokeCheckPassword(env: Foreign, password: string, hashedPassword: string) returns (r: Returned<bool>)
      requires Valid()
      modifies this`calls
      ensures r == RunCheckPassword(Tables(), env, password, hashedPassword)
      ensures calls == old(calls) + [PasswordCheck(password, hashedPassword)]
    {
      match useSlots[CheckPassword] {
      case Default => r := Events.DefaultUseCheckPassword(env.bcryptCompare, password, hashedPassword);
      case Host(Example) => r := Returned(false, Security.Compare(password, hashedPassword));
      case Host(Failing) => r := Returned(true, false);
      }
      calls := calls + [PasswordCheck(password, hashedPassword)];
    }

    method InvokeIntercept(data: InterceptData) returns (r: InterceptResult)
      requires Valid()
      modifies this`calls
      ensures r == RunIntercept(Tables(), data)
      ensures calls == old(calls) + [Interception(data)]
    {
      match interceptSlots[EventOf(data)] {
      case PassThrough => r := Events.UndefinedInterceptEvent(data);
      case Intercepting(decide) => r := decide(data);
      }
      calls := calls + [Interception(data)];
    }

    /** The public e-mail check: the `validateMail` hook on the address. */
    method ValidateEmail(email: string) returns (r: Returned<bool>)
      requires Valid()
      modifies this`calls
      ensures r == RunValidateMail(Tables(), email)
      ensures calls == old(calls) + [MailValidation(email)]
    {
      r := InvokeValidateMail(email);
    }

    /** The public password check: the `validatePassword` hook with the configured rules, raw and parsed. */
    method ValidatePassword(password: string) returns (r: Returned<bool>)
      requires Valid()
      modifies this`calls
      ensures var rules := config.passwordValidationRules;
        r == RunValidatePassword(Tables(), password, rules, InputValidation.RulesOf(rules))
        && calls == old(calls) + [PasswordValidation(password, rules, InputValidation.RulesOf(rules))]
    {
      var parsed := InputValidation.ParsePasswordRules(config.passwordValidationRules);
      r := InvokeValidatePassword(password, config.passwordValidationRules, parsed);
    }

    /** The public access-token guard, bound to the configured access secret. */
    function ValidateAuth(accessToken: Option<Token>, now: int): (g: Guard)
      ensures g.tokenError <==> !(Truthy(accessToken) && Verifies(accessToken.value, config.accessTokenSecret, now))
      ensures !g.tokenError ==> g.payload == Some(TokenPayload(accessToken.value.payload.id))
    {
      ValidateAccessToken(config.accessTokenSecret, accessToken, now)
    }

    /** The public middleware, bound to the configured access secret. */
    function ValidateAuthMiddleware(header: Option<seq<Token>>, now: int): (v: Verdict)
      ensures v.Passed? <==> ValidateAuth(HeaderToken(header), now).code == 0
    {
      AccessTokenMiddleware(config.accessTokenSecret, header, now)
    }
  }
}
