/** The callbacks a fresh instance fills its hook slots with. */
module Events {
  import opened Wrappers
  import opened AuthTypes
  import InputValidation

  /** The callback of a required slot nobody registered: the fallback fields with the server-error flag set. */
  function UndefinedUseEvent<R>(fallback: R): (r: Returned<R>)
    ensures r.serverError && r.value == fallback
  {
    Returned(true, fallback)
  }

  /**
   * The library's hashing: the outcome of the foreign hash function `bcryptHash` (`None` when it
   * fails). A failure is a server error with an empty hash.
   */
  function DefaultUseHashPassword(bcryptHash: string -> Option<string>, password: string): (r: Returned<string>)
    ensures r.serverError <==> bcryptHash(password).None?
    ensures r.serverError ==> r.value == ""
    ensures !r.serverError ==> r.value == bcryptHash(password).value
  {
    match bcryptHash(password)
    case Some(hashed) => Returned(false, hashed)
    case None => Returned(true, "")
  }

  /** The library's id generation: a fresh identifier drawn by the foreign generator, never an error. */
  function DefaultUseGenId(uuid: string): (r: Returned<string>)
    ensures !r.serverError && r.value == uuid
  {
    Returned(false, uuid)
  }

  /** The library's password check: the foreign comparison's answer; a failure is a server error and no match. */
  function DefaultUseCheckPassword(bcryptCompare: (string, string) -> Option<bool>, password: string, hashedPassword: string): (r: Returned<bool>)
    ensures r.serverError <==> bcryptCompare(password, hashedPassword).None?
    ensures r.value <==> bcryptCompare(password, hashedPassword) == Some(true)
  {
    match bcryptCompare(password, hashedPassword)
    case Some(matches) => Returned(false, matches)
    case None => Returned(true, false)
  }

  /** The library's e-mail check: the structural recogniser, never an error. */
  function DefaultUseValidateMail(email: string): (r: Returned<bool>)
    ensures !r.serverError
    ensures r.value <==> InputValidation.ValidateEmail(email)
  {
    Returned(false, InputValidation.ValidateEmail(email))
  }

  /**
   * The library's password check: the rule string is interpreted afresh and the parsed rules passed
   * alongside are not consulted.
   */
  function DefaultUseValidatePassword(password: string, passwordRules: string, parsedPasswordRules: InputValidation.PasswordRules): (r: Returned<bool>)
    ensures !r.serverError
    ensures r.value <==> InputValidation.Accepts(password, InputValidation.RulesOf(passwordRules))
  {
    Returned(false, InputValidation.Accepts(password, InputValidation.RulesOf(passwordRules)))
  }

  /** Whatever parsed rules are passed along, the default password check gives the same answer. */
  lemma ParsedRulesIgnored(password: string, passwordRules: string, p: InputValidation.PasswordRules, q: InputValidation.PasswordRules)
    ensures DefaultUseValidatePassword(password, passwordRules, p) == DefaultUseValidatePassword(password, passwordRules, q)
  {
  }

  /** The callback of an intercept slot nobody registered: never a veto, never an error. */
  function UndefinedInterceptEvent(data: InterceptData): (r: InterceptResult)
    ensures !r.serverError && !r.intercepted && r.interceptCode == 0
  {
    InterceptResult(false, false, 0)
  }
}
