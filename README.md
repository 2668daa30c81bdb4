# auth-tools express: a Dafny model of the authentication engine

The engine is embedded in an Express application. It serves five POST flows: register, login,
logout, refresh and check. Each flow is a short pipeline that stops at its first failure:

1. the disabled-route check;
2. the missing-input check;
3. validation;
4. hook calls;
5. the intercept's veto;
6. persisting;
7. the answer.

The engine owns no storage. Everything it reads or writes goes through a table of hooks (`use`
events) that the host fills in, and a second table of veto callbacks (`intercept` events). Every
answer is the envelope `{auth: {error, code, interceptCode}, data}` under an HTTP status.

Codes by flow:

| flow | codes | success code |
|---|---|---|
| register | 10–19 | 10 |
| login | 20–29 | 20 |
| logout | 31–39 | 10 |
| refresh | 40–49 | 40 |
| check | 50–59 | 50 |

A server error always answers HTTP 500 with code 5.

The model is one module per source file, plus `AuthTypes` (the shared types, split out of `authInstance.ts`), `RefreshGate` (the refresh-token check that three routes share) and `Scenario` (a whole session against the example application). Four of the modules work on plain values:

- `InputValidation`: the `U-L-D-S-N` password rule string, the password-strength check and the e-mail recogniser.
- `Senders`: the envelope.
- `TokenUtils`: tokens, the access-token guard and its middleware.
- `Events`: the library's default callbacks.

`Auth` holds the configuration with its `??` defaults, and the two hook tables as tags:
- a use slot is `Unset`, `Default` or a host callback;
- an intercept slot is `PassThrough` or a host decision.

`Auth` also holds the class `AuthInstance`. Its fields are the resolved configuration and the two
tables, which `Use` and `Intercept` overwrite in place. Its `Invoke*` methods are how the flows
call a hook.

Each flow exists twice:
- A pure specification function gives an `Outcome`: the response, the host store left behind, and
  the trace of hook calls in order.
- A handler method on an `AuthInstance` runs the same early-return pipeline and is proved equal to
  that function.

The properties of each flow are lemmas about its function, in both directions. From an answer back
to its cause: the codes a flow can answer, when it touches the store, and what a veto or a success
implies. From a cause forward to its answer: which rejection, hook error, veto or success each
combination of hook results produces.

`CombinedLookup` models the lookup by e-mail address, then by username, that register and login
share. `RefreshGate` models the refresh-token check that logout, refresh and check share. A token
the check lets through is called admitted (`RefreshGate.Admits`): it verifies under the refresh
secret, and `checkToken` reports without error that it is stored. `Router` models which routes are
mounted.

The example application is the host the flows can run against end to end:
- `VirtualDatabase`: an in-place array store. Its `deleteOne` removes the last record when nothing
  matches, because of `splice(-1, 1)`.
- `Security`: "hashing" by reversing the string.
- `ExampleHost`: its hook callbacks over two such stores.

`Scenario` proves the outcome of register, login, check, logout and check again, in sequence, against these callbacks.

## Model

| member | source | states |
|---|---|---|
| Senders.SendAuthData | express/src/senders.ts:11-19 | the body is exactly the given auth triad and data, under the requested status |
| Senders.SendAuthResponse | express/src/senders.ts:22-34 | a non-error answer with the given code and intercept code 0; the data passes through unchanged |
| Senders.SendAuthError | express/src/senders.ts:37-49 | an error answer with null data; the intercept code is 0 unless one is given |
| Senders.SendAuthServerError | express/src/senders.ts:52-54 | always HTTP 500 with error set, code 5, intercept code 0 and null data |
| Senders.SendData | express/src/senders.ts:57-68 | a non-error answer with code 0 and intercept code 0, carrying the data under the status |
| Senders.SendersDisjoint | express/src/senders.ts:37-54 | error answers and success answers are never confused; an error answer equals the server error exactly when it is 500/5 with intercept code 0 |
| Events.UndefinedUseEvent | express/src/events.ts:13-22 | an unregistered required hook answers its fallback fields with the server-error flag set |
| Events.DefaultUseHashPassword | express/src/events.ts:25-38 | the foreign hash's result on success; on failure a server error with an empty hash |
| Events.DefaultUseGenId | express/src/events.ts:41-46 | the foreign generator's identifier, never a server error |
| Events.DefaultUseCheckPassword | express/src/events.ts:49-62 | a server error exactly when the foreign comparison fails; a match only when it answers true |
| Events.DefaultUseValidateMail | express/src/events.ts:65-70 | never an error; valid exactly when the structural e-mail recogniser accepts |
| Events.DefaultUseValidatePassword | express/src/events.ts:73-78 | never an error; valid exactly when the password meets the rules parsed from the rule string |
| Events.ParsedRulesIgnored | express/src/events.ts:74-77 | the default password check gives the same answer whatever parsed rules it is handed |
| Events.UndefinedInterceptEvent | express/src/events.ts:81-87 | an unregistered intercept never vetoes and never reports an error |
| InputValidation.Split | express/src/inputValidation.ts:28 | at least one field; no field holds the separator; joining the fields gives the string back |
| InputValidation.SplitJoin | express/src/inputValidation.ts:28 | splitting the join of separator-free fields gives exactly those fields back |
| InputValidation.DecimalString | express/example/index.ts:111 | a number's rendering is a non-empty run of decimal digits |
| InputValidation.DecimalRoundTrip | express/src/inputValidation.ts:34 | reading a rendered number back with `Number` gives the number |
| InputValidation.ParsePasswordRules | express/src/inputValidation.ts:17-37 | the field-by-field overwrite of the built-in record gives the rules the descriptor spells |
| InputValidation.ParseFiveFields | express/src/inputValidation.ts:28-34 | each flag is off exactly when its field is "N"; the minimum length is `Number` of the fifth field |
| InputValidation.DescriptorParsed | express/src/inputValidation.ts:17-37 | every well-formed `U-L-D-S-N` descriptor parses to exactly the flags and length it spells |
| InputValidation.ValidatePassword | express/src/inputValidation.ts:40-74 | clearing the flag at each failing check leaves it set exactly when all five checks pass |
| InputValidation.DescriptorMeaning | express/src/inputValidation.ts:47-73 | a password is accepted exactly when each required class is present and the length is at least the minimum |
| InputValidation.DefaultRuleMeaning | express/src/inputValidation.ts:40-73 | under "Y-Y-Y-N-8" a password is accepted exactly when it has an upper, a lower and a digit and at least 8 characters |
| InputValidation.NothingRequiredAcceptsAll | express/src/inputValidation.ts:50-71 | under "N-N-N-N-0" every password is accepted |
| InputValidation.NonNumericLengthNeverFails | express/src/inputValidation.ts:34-71 | a non-numeric fifth field gives no minimum length, so only the class checks can reject |
| InputValidation.AppendKeepsValid | express/src/inputValidation.ts:51-71 | appending characters never makes an accepted password rejected |
| InputValidation.DigitFieldsChars | express/src/inputValidation.ts:78 | a string whose dot-separated fields are all digits holds only digits and dots |
| InputValidation.DomainHasNoWhitespace | express/src/inputValidation.ts:78 | no character of an accepted domain is whitespace |
| InputValidation.EmailShape | express/src/inputValidation.ts:78 | every accepted address contains `@` and ends in `]` or in two ASCII letters |
| InputValidation.AtomRunHasNoWhitespace | express/src/inputValidation.ts:78 | an unquoted local part holds no whitespace |
| InputValidation.WhitespaceBeforeAt | express/src/inputValidation.ts:78 | whitespace in an accepted address lies before the `@` it splits at |
| InputValidation.WhitespaceInQuotes | express/src/inputValidation.ts:78 | whitespace in an accepted address lies strictly inside a quoted local part |
| InputValidation.WhitespaceOnlyQuoted | express/src/inputValidation.ts:78 | an address with whitespace is accepted only when it opens with a quote and the whitespace precedes a closing `"@` |
| InputValidation.SampleAddressAccepted | express/src/inputValidation.ts:77-81 | "a@b.com" is accepted |
| InputValidation.NoAtRejected | express/src/inputValidation.ts:77-81 | a string without `@` is rejected |
| Security.Reverse | express/example/security.ts:3 | same length, with character i taken from position length-1-i |
| Security.Hash | express/example/security.ts:2-4 | the hash is the password reversed, of the same length |
| Security.Compare | express/example/security.ts:7-9 | a password matches a hash exactly when its reversal is that hash |
| Security.HashInvolution | express/example/security.ts:3 | hashing twice gives the password back |
| Security.CompareHashRoundTrip | express/example/security.ts:2-9 | every password matches its own hash |
| Security.HashInjective | express/example/security.ts:7-9 | different passwords never share a hash |
| VirtualDatabase.FirstIndex | express/example/database.ts:30 | -1 exactly when nothing matches; otherwise an index that matches with no match before it |
| VirtualDatabase.Find | express/example/database.ts:15-16 | none exactly when nothing matches; otherwise a stored record that matches |
| VirtualDatabase.SpliceOne | express/example/database.ts:29-32 | `splice(start, 1)`: a start in range removes that element, a negative one counts from the end, one past the end changes nothing |
| VirtualDatabase.Database.constructor | express/example/database.ts:6-8 | a new store is empty |
| VirtualDatabase.Database.FindIndex | express/example/database.ts:30 | the front-to-back scan returns the first matching index, or -1 |
| VirtualDatabase.Database.FindOne | express/example/database.ts:11-17 | the first record whose field equals the value, or none |
| VirtualDatabase.Database.StoreOne | express/example/database.ts:20-22 | the record is appended at the end and nothing else changes |
| VirtualDatabase.Database.DeleteOne | express/example/database.ts:25-33 | the records become `splice` at the first match's index, which is -1 when nothing matches |
| VirtualDatabase.Database.Exists | express/example/database.ts:36-41 | true exactly when `findOne` finds a record, that is, when some record matches |
| VirtualDatabase.Database.Items | express/example/database.ts:44-46 | the number of stored records |
| VirtualDatabase.FirstIndexIsFirstMatch | express/example/database.ts:30 | a matching position with no match before it is the one `findIndex` returns |
| VirtualDatabase.DeleteRemovesFirstMatch | express/example/database.ts:29-32 | with a match, delete removes exactly the first match, keeps the rest in order and shortens the store by one |
| VirtualDatabase.DeleteWithoutMatch | express/example/database.ts:29-32 | without a match, delete drops the last record of a non-empty store and leaves an empty store alone |
| VirtualDatabase.DeleteKeepsOthers | express/example/database.ts:29-32 | every record that is not the one removed is still stored, and the store is one shorter unless it was empty |
| TokenUtils.GenerateToken | express/src/tokenUtils.ts:11-23 | the signed token carries the payload, the secret and the issue time; it has an expiry exactly when `expiresIn` is truthy, at issue time plus `expiresIn` |
| TokenUtils.DecodeToken | express/src/tokenUtils.ts:26-38 | decoding never fails: it is valid exactly when the token verifies, with a payload exactly when valid, and the payload keeps only the id |
| TokenUtils.GenerateDecodeRoundTrip | express/src/tokenUtils.ts:11-38 | a generated token decodes, under the same secret and before its expiry, to its own payload |
| TokenUtils.WrongSecretRejected | express/src/tokenUtils.ts:26-38 | a token never decodes under a secret other than its own |
| TokenUtils.FalsyExpiryNeverExpires | express/src/tokenUtils.ts:21 | with `expiresIn` absent or 0 the token stays valid at every later time |
| TokenUtils.ExpiredRejected | express/src/tokenUtils.ts:21 | from its expiry time on, a token with a non-zero lifetime is rejected |
| TokenUtils.ValidateAccessToken | express/src/tokenUtils.ts:41-68 | a missing or empty token gives (error, 1, no payload); one that fails verification gives (error, 2, no payload); otherwise (no error, 0, its id) |
| TokenUtils.GuardShape | express/src/tokenUtils.ts:48-66 | the guard reports an error exactly when there is no payload and the code is non-zero; the code is 0, 1 or 2 |
| TokenUtils.HeaderToken | express/src/tokenUtils.ts:77-78 | the token is the header's second word, and there is none when the header is missing or has fewer than two words |
| TokenUtils.AccessTokenMiddleware | express/src/tokenUtils.ts:74-96 | guard code 1 answers 400/1, code 2 answers 403/2, and code 0 passes the guard's payload on |
| TokenUtils.BearerTokenPasses | express/src/tokenUtils.ts:77-94 | a `Bearer <token>` header with a good access token passes with that token's id |
| AuthTypes.EventOf | express/src/authInstance.ts:122-137 | each intercept input shape belongs to its own flow's intercept event, in both directions |
| AuthTypes.UseEventOf | express/src/authInstance.ts:78-102 | a hook call has no use event exactly when it is an intercept |
| Auth.Coalesce | express/src/authInstance.ts:225-230 | `??`: a given value wins, even false or 0; only an absent one takes the default |
| Auth.ResolveRoutes | express/src/authInstance.ts:231-237 | each of the five route states is the given one, or "active" |
| Auth.ResolveConfig | express/src/authInstance.ts:222-238 | the secrets are copied; every other field is the given value or its default: 900, true, "Y-Y-Y-N-8", true, true, false |
| Auth.ExplicitValuesKept | express/src/authInstance.ts:225-236 | a configuration that gives every field resolves to exactly those values |
| Auth.SecretsOnlyDefaults | express/src/authInstance.ts:222-238 | with only the secrets given, every field takes its documented default and every route is active |
| Auth.RouteStatesIndependent | express/src/authInstance.ts:231-237 | changing one route's option changes only that route's resolved state |
| Auth.EventsListed | express/src/authInstance.ts:176-217 | the use-event and intercept-event sets name every event |
| Auth.InitialUseSlot | express/src/authInstance.ts:176-208 | a fresh slot holds the failing placeholder exactly for the six required events, and the library default for the others |
| Auth.InitialTables | express/src/authInstance.ts:176-217 | fresh tables are valid: failing placeholders for required events, library defaults for optional ones, pass-through intercepts |
| Auth.WithUse | express/src/authInstance.ts:277-283 | `use` sets its own slot to the host callback and changes no other use slot and no intercept slot |
| Auth.WithIntercept | express/src/authInstance.ts:286-293 | `intercept` sets its own slot and changes no other intercept slot and no use slot |
| Auth.RegistrationKeepsValid | express/src/authInstance.ts:277-293 | registering a callback keeps the tables valid |
| Auth.LastRegistrationWins | express/src/authInstance.ts:282 | of two registrations for one event the second is what remains |
| Auth.RegistrationsCommute | express/src/authInstance.ts:282 | registrations for different events can be made in either order |
| Auth.RunGetUserByMail | express/src/authInstance.ts:178-184 | with the example callback, its lookup; with no callback, a server error and no user |
| Auth.RunGetUserByName | express/src/authInstance.ts:185-191 | with the example callback, its lookup; with no callback, a server error and no user |
| Auth.RunStoreUser | express/src/authInstance.ts:192 | a server error leaves the store alone; otherwise the user is appended |
| Auth.RunCheckToken | express/src/authInstance.ts:193-199 | a server error answers "not stored"; otherwise stored exactly when the token's record is in the store |
| Auth.RunStoreToken | express/src/authInstance.ts:200 | a server error leaves the store alone; otherwise the token's record is appended |
| Auth.RunDeleteToken | express/src/authInstance.ts:201 | a server error leaves the store alone; otherwise the token's record is deleted as the example store deletes |
| Auth.RunValidateMail | express/src/authInstance.ts:203 | the library default, the example's `@` test, or a server error exactly for a failing host callback |
| Auth.RunValidatePassword | express/src/authInstance.ts:204 | the library default, the example's length test, or a server error exactly for a failing host callback |
| Auth.RunHashPassword | express/src/authInstance.ts:205 | the library's hash, the example's reversal, or a server error for a failing host callback |
| Auth.RunGenId | express/src/authInstance.ts:206 | the library's fresh id, the example's user count, or a server error exactly for a failing host callback |
| Auth.RunCheckPassword | express/src/authInstance.ts:207 | the library's comparison, the example's reversal test, or a server error with no match |
| Auth.RunIntercept | express/src/authInstance.ts:211-217 | an unregistered intercept lets everything through; a registered one decides on the flow's data |
| Auth.FreshRequiredHooksFail | express/src/authInstance.ts:178-201 | on a fresh instance each required hook answers a server error with its fallback and leaves the store alone |
| Auth.AuthInstance.constructor | express/src/authInstance.ts:174-274 | the configuration is resolved once and both tables start with their initial callbacks |
| Auth.AuthInstance.Use | express/src/authInstance.ts:277-283 | the instance's tables become `use` of the old tables, and stay valid |
| Auth.AuthInstance.Intercept | express/src/authInstance.ts:286-293 | the instance's tables become `intercept` of the old tables, and stay valid |
| Auth.AuthInstance.InvokeGetUserByMail | express/src/authInstance.ts:240-242 | the call answers what the current slot answers, and is recorded in the trace |
| Auth.AuthInstance.InvokeGetUserByName | express/src/authInstance.ts:240-242 | the call answers what the current slot answers, and is recorded in the trace |
| Auth.AuthInstance.InvokeStoreUser | express/src/authInstance.ts:240-242 | the answer and the new host state are the current slot's, and the call is recorded |
| Auth.AuthInstance.InvokeCheckToken | express/src/authInstance.ts:240-242 | the call answers what the current slot answers, and is recorded in the trace |
| Auth.AuthInstance.InvokeStoreToken | express/src/authInstance.ts:240-242 | the answer and the new host state are the current slot's, and the call is recorded |
| Auth.AuthInstance.InvokeDeleteToken | express/src/authInstance.ts:240-242 | the answer and the new host state are the current slot's, and the call is recorded |
| Auth.AuthInstance.InvokeValidateMail | express/src/authInstance.ts:240-242 | the call answers what the current slot answers, and is recorded in the trace |
| Auth.AuthInstance.InvokeValidatePassword | express/src/authInstance.ts:240-242 | the call answers what the current slot answers, and is recorded in the trace |
| Auth.AuthInstance.InvokeHashPassword | express/src/authInstance.ts:240-242 | the call answers what the current slot answers, and is recorded in the trace |
| Auth.AuthInstance.InvokeGenId | express/src/authInstance.ts:240-242 | the call answers what the current slot answers, and is recorded in the trace |
| Auth.AuthInstance.InvokeCheckPassword | express/src/authInstance.ts:240-242 | the call answers what the current slot answers, and is recorded in the trace |
| Auth.AuthInstance.InvokeIntercept | express/src/authInstance.ts:240-242 | the call answers what the flow's current intercept slot answers, and is recorded in the trace |
| Auth.AuthInstance.ValidateEmail | express/src/authInstance.ts:258-261 | the public check is the `validateMail` hook on the address |
| Auth.AuthInstance.ValidatePassword | express/src/authInstance.ts:264-273 | the public check is the `validatePassword` hook with the configured rule string and its parsed rules |
| Auth.AuthInstance.ValidateAuth | express/src/authInstance.ts:251 | the guard reports an error exactly when the token is missing or does not verify under the access secret; otherwise it gives the token's id |
| Auth.AuthInstance.ValidateAuthMiddleware | express/src/authInstance.ts:254-255 | a request passes exactly when the bound guard gives code 0 for its header token |
| CombinedLookup.LookupByLogin | express/src/getUserByLogin.ts:8-39 | the e-mail lookup runs first, then maybe the name lookup; a 500/5 is sent exactly on a server error, and then there is no user |
| CombinedLookup.GetUserByLogin | express/src/getUserByLogin.ts:8-39 | the helper's two awaited calls give the lookup's result, its own 500 and its calls |
| CombinedLookup.MailErrorSkipsNameLookup | express/src/getUserByLogin.ts:20-23 | an e-mail lookup error ends the helper with a server error and no user, before the name lookup |
| CombinedLookup.MailMatchWins | express/src/getUserByLogin.ts:38 | without errors the e-mail match wins, else the name match; no user exactly when neither lookup found one |
| CombinedLookup.ExampleLookup | express/src/getUserByLogin.ts:14-38 | with the example callbacks the lookup finds a stored user with that e-mail address or username, and none exactly when no one has either |
| ExampleHost.UserByMail | express/example/index.ts:48-51 | never an error; a user found is stored and has that e-mail address; none exactly when nobody has it |
| ExampleHost.UserByName | express/example/index.ts:54-57 | never an error; a user found is stored and has that username; none exactly when nobody has it |
| ExampleHost.WithUser | express/example/index.ts:60-63 | the user is appended and the token table is unchanged |
| ExampleHost.TokenExists | express/example/index.ts:66-69 | never an error; true exactly when the token's record is stored |
| ExampleHost.WithToken | express/example/index.ts:72-75 | the token's record is appended and the user table is unchanged |
| ExampleHost.WithoutToken | express/example/index.ts:78-81 | the users are unchanged; the token table is spliced at the first record of that token, or at -1 when there is none |
| ExampleHost.WithoutStoredToken | express/example/index.ts:78-81 | deleting a stored token removes its first record and keeps every other record in order |
| ExampleHost.WithoutNewToken | express/example/index.ts:72-81 | storing a token that was not stored and then deleting it gives back the original store |
| ExampleHost.MailAccepted | express/example/index.ts:84-87 | never an error; valid exactly when the address contains `@` |
| ExampleHost.PasswordAccepted | express/example/index.ts:90-100 | never an error; valid exactly when the password has at least 8 characters |
| ExampleHost.NextId | express/example/index.ts:109-113 | never an error; the id is the user count in decimal and reads back as that count |
| ExampleHost.NextIdDistinct | express/example/index.ts:109-113 | ids handed out at different user counts differ |
| ExampleHost.Host.constructor | express/example/index.ts:17-18 | the application starts with two separate, empty tables |
| ExampleHost.Host.GetUserByMail | express/example/index.ts:48-51 | the callback answers the lookup by e-mail address on the current tables |
| ExampleHost.Host.GetUserByName | express/example/index.ts:54-57 | the callback answers the lookup by username on the current tables |
| ExampleHost.Host.StoreUser | express/example/index.ts:60-63 | no error, and the user table gains the user at its end |
| ExampleHost.Host.CheckToken | express/example/index.ts:66-69 | the callback answers whether the token is stored |
| ExampleHost.Host.StoreToken | express/example/index.ts:72-75 | no error, and the token table gains the token's record at its end |
| ExampleHost.Host.DeleteToken | express/example/index.ts:78-81 | no error, and the token table loses a record as the example store deletes |
| ExampleHost.Host.GenId | express/example/index.ts:109-113 | the callback answers the current user count in decimal |
| Router.PathOf | express/src/router.ts:24-42 | every flow's path is a non-empty absolute path |
| Router.Served | express/src/router.ts:24-42 | a flow contributes its own route exactly when its state is not "removed" |
| Router.MountedRoutes | express/src/router.ts:24-42 | at most five routes, each at its own flow's path, and none of a removed flow |
| Router.MountedExactly | express/src/router.ts:24-42 | a flow is mounted exactly when its route state is not "removed", whatever the other states |
| Router.PathsDistinct | express/src/router.ts:24-42 | different flows have different paths |
| Router.AuthRouter.constructor | express/src/router.ts:21 | a new router serves nothing |
| Router.AuthRouter.Post | express/src/router.ts:24-26 | a POST route is added after the existing ones |
| Router.CreateAuthRouter | express/src/router.ts:17-46 | the fresh router serves exactly the mounted routes, in the order register, login, logout, refresh, check |
| Router.Dispatch | express/src/router.ts:17-46 | under exact path matching, a path reaches a flow only through a route with that path, and no flow when no route has it |
| Router.DispatchReachesMountedFlows | express/src/router.ts:24-42 | a flow's path reaches that flow exactly when it is not removed; a disabled flow is still reached |
| Router.DefaultRoutesServeAll | express/src/router.ts:24-42 | with no route options all five flows are served, in the source's order |
| RefreshGate.StoredRefreshToken | express/src/routes/logout.ts:33-49 | passing the gate means the token verifies under the refresh secret and its record is stored |
| RefreshGate.CheckRefreshToken | express/src/routes/refresh.ts:33-49 | the handler form gives the gate's answer and calls; passing it yields the token's id |
| RefreshGate.GateStage | express/src/routes/check.ts:33-49 | only the flow's invalid or unknown code, or 500/5; a token that does not verify is rejected without a hook call, otherwise `checkToken` alone runs |
| RefreshGate.GatePassesStoredTokens | express/src/routes/logout.ts:41-49 | when `checkToken` reports no error, a verifying token passes exactly when it is stored; otherwise the answer is the flow's 404 code |
| RefreshGate.GateCauses | express/src/routes/refresh.ts:41-49 | for a verifying token a `checkToken` error answers 500/5 after that one call, and the gate passes exactly when the token verifies and `checkToken` reports it stored without error |
| RegisterRoute.Register | express/src/routes/register.ts:19-135 | the handler gives the register flow's response, store and hook trace |
| RegisterRoute.ValidateRegistration | express/src/routes/register.ts:34-63 | the handler's validation steps agree with the validation stage |
| RegisterRoute.CheckUniqueness | express/src/routes/register.ts:65-87 | the handler's two lookups agree with the uniqueness stage |
| RegisterRoute.CreateUser | express/src/routes/register.ts:89-130 | the handler's creation steps agree with the creation stage, store included |
| RegisterRoute.ValidationStage | express/src/routes/register.ts:34-63 | validation answers only 500/5, 406/13 or 406/14, each failure code only when its check is enabled |
| RegisterRoute.ValidationCalls | express/src/routes/register.ts:34-63 | validation never calls `storeUser` |
| RegisterRoute.ValidationSkipsMail | express/src/routes/register.ts:34-45 | with e-mail validation off, `validateMail` is never called |
| RegisterRoute.ValidationSkipsPassword | express/src/routes/register.ts:47-63 | with password validation off, `validatePassword` is never called |
| RegisterRoute.UniquenessStage | express/src/routes/register.ts:65-87 | uniqueness answers only 500/5 or 403 with 15, 16 or 17; an answer of 15, 16 or 17 is 17 exactly on a sensitive API |
| RegisterRoute.UniquenessCalls | express/src/routes/register.ts:65-87 | uniqueness validates nothing and stores nothing |
| RegisterRoute.CreationStage | express/src/routes/register.ts:89-130 | creation answers 500/5, 403/19 or 201/10; only 201/10 changes the store, by exactly the user with the `genId` id and the `hashPassword` hash |
| RegisterRoute.CreationCalls | express/src/routes/register.ts:89-124 | creation never validates |
| RegisterRoute.CreationStoresLast | express/src/routes/register.ts:121-130 | a successful creation's last call is the `storeUser` of the user it added |
| RegisterRoute.CreationVeto | express/src/routes/register.ts:109-119 | a veto came from the intercept, shown the new user as the last call, and `storeUser` never ran |
| RegisterRoute.ValidationCauses | express/src/routes/register.ts:34-63 | an enabled check's hook error answers 500/5; an address `validateMail` rejects answers 406/13, and a rejected password after an accepted address 406/14; the stage passes exactly when every enabled check accepted |
| RegisterRoute.UniquenessCauses | express/src/routes/register.ts:65-87 | a lookup error answers 500/5; an address already in use answers 15, then a username already in use 16 (17 for both when sensitive); the stage passes exactly when both lookups found nobody |
| RegisterRoute.CreationErrors | express/src/routes/register.ts:89-124 | a server error from `hashPassword`, `genId`, the intercept or `storeUser` answers 500/5 and leaves the store unchanged |
| RegisterRoute.CreationCauses | express/src/routes/register.ts:109-130 | an intercept veto answers 403/19 with its code, store unchanged and no `storeUser`; creation succeeds exactly when no hook failed and the intercept allowed the user |
| RegisterRoute.RegisterRejectsEarly | express/src/routes/register.ts:21-32 | a disabled route answers 403/11 and a missing or empty field 400/12, both before any hook and with the store unchanged |
| RegisterRoute.RegisterStages | express/src/routes/register.ts:34-130 | the first stage to answer decides the response; only the last stage changes the store; the trace is the stages' calls in order |
| RegisterRoute.RegisterAnswers | express/src/routes/register.ts:19-135 | the possible codes with their statuses; error exactly when the code is not 10; an intercept code only with 19 |
| RegisterRoute.RegisterCollisionCodes | express/src/routes/register.ts:65-87 | an answer of 15, 16 or 17 is 17 exactly on a sensitive API, and leaves the store unchanged (which lookup causes which code: RegisterEmailTaken, RegisterUsernameTaken) |
| RegisterRoute.RegisterCollisionStoresNothing | express/src/routes/register.ts:65-87 | an answer of 15, 16 or 17 never follows a `storeUser` call |
| RegisterRoute.RegisterSkipsMailCheck | express/src/routes/register.ts:34-45 | with e-mail validation off, 13 is never answered and `validateMail` never called |
| RegisterRoute.RegisterSkipsPasswordCheck | express/src/routes/register.ts:47-63 | with password validation off, 14 is never answered and `validatePassword` never called |
| RegisterRoute.RegisterVetoStoresNothing | express/src/routes/register.ts:109-124 | an answer of 19 leaves the store unchanged and follows no `storeUser` call (that an intercept veto causes it: RegisterVetoed) |
| RegisterRoute.RegisterVetoIsLastCall | express/src/routes/register.ts:109-119 | a veto carries the intercept's own code, and the intercept, shown the new user, was the last hook called |
| RegisterRoute.RegisterSuccess | express/src/routes/register.ts:34-130 | success means all fields were present, every enabled validation accepted, both lookups found nobody without error, `hashPassword` and `genId` reported no error and the intercept let the user through; exactly the new user was stored, and 201/10 carries only its id, e-mail and username |
| RegisterRoute.RegisterSucceeds | express/src/routes/register.ts:34-130 | every enabled validation accepting, both logins unused, no hook error and an allowing intercept together give 201/10 with the new user's id, e-mail and username, and store exactly that user |
| RegisterRoute.RegisterRejectsBadEmail | express/src/routes/register.ts:34-45 | with e-mail validation on, an address `validateMail` rejects answers 406/13 after that one call and stores nothing |
| RegisterRoute.RegisterRejectsWeakPassword | express/src/routes/register.ts:47-63 | with password validation on and the address accepted, a password `validatePassword` rejects answers 406/14 and stores nothing |
| RegisterRoute.RegisterEmailTaken | express/src/routes/register.ts:65-75 | after validation, an address the lookup finds a user for answers 403/15 (17 when sensitive) and stores nothing |
| RegisterRoute.RegisterUsernameTaken | express/src/routes/register.ts:77-87 | after validation and an unused address, a username the lookup finds a user for answers 403/16 (17 when sensitive) and stores nothing |
| RegisterRoute.RegisterValidationErrors | express/src/routes/register.ts:34-63 | a server error from an enabled validation hook answers 500/5 and stores nothing |
| RegisterRoute.RegisterLookupErrors | express/src/routes/register.ts:65-80 | after validation, a server error from either uniqueness lookup answers 500/5 and stores nothing |
| RegisterRoute.RegisterCreationErrors | express/src/routes/register.ts:89-124 | after validation and uniqueness, a server error from `hashPassword`, `genId`, the intercept or `storeUser` answers 500/5 and stores nothing |
| RegisterRoute.RegisterVetoed | express/src/routes/register.ts:109-119 | once the new user is built, an intercept veto answers 403/19 with its own code, stores nothing and never calls `storeUser` |
| RegisterRoute.RegisterSuccessIsLastCall | express/src/routes/register.ts:121-130 | a successful registration ends with the `storeUser` call of the user it added |
| RegisterRoute.RegisterStoreEffect | express/src/routes/register.ts:19-135 | the store is unchanged, or on success alone gains exactly one user and no token |
| LoginRoute.LoginIdentification | express/src/routes/login.ts:33-60 | passing identification means the lookup found a user without error |
| LoginRoute.Login | express/src/routes/login.ts:19-104 | the handler gives the login flow's response, store and hook trace |
| LoginRoute.IdentifyUser | express/src/routes/login.ts:33-60 | the handler's lookup and password check agree with identification, and yield the user it found |
| LoginRoute.IssueTokens | express/src/routes/login.ts:62-99 | the handler's token steps agree with the issuing stage, store included |
| LoginRoute.IdentificationStage | express/src/routes/login.ts:33-60 | identification answers only 500/5 or 403 with 23, 24 or 25, and 25 exactly on a sensitive API |
| LoginRoute.IdentificationCalls | express/src/routes/login.ts:33-50 | identification never calls `storeToken` |
| LoginRoute.IdentificationPassed | express/src/routes/login.ts:46-60 | passing means `checkPassword`, called last, accepted the password against the found user's hash |
| LoginRoute.IssueStage | express/src/routes/login.ts:62-99 | issuing answers 500/5, 403/29 or 201/20; 201/20 carries the id-only token pair and stores exactly its refresh token; nothing else changes the store |
| LoginRoute.IssueCalls | express/src/routes/login.ts:72-92 | the intercept sees the user, both tokens and the payload first; a veto stops there; success then stores the refresh token and nothing more |
| LoginRoute.IdentificationCauses | express/src/routes/login.ts:33-60 | a lookup error answers 500/5; nobody found answers 403/23 after the lookups alone; for a found user a `checkPassword` error answers 500/5 and a rejected password 403/24 (25 for both when sensitive); the stage passes exactly when `checkPassword` accepted |
| LoginRoute.IssueCauses | express/src/routes/login.ts:62-99 | an intercept error answers 500/5 and a veto 403/29 with its code and no `storeToken`; a `storeToken` error answers 500/5; none changes the store; issuing succeeds exactly when the intercept allowed and `storeToken` reported no error |
| LoginRoute.LoginRejectsEarly | express/src/routes/login.ts:21-32 | a disabled route answers 403/21 and a missing or empty field 400/22, both before any hook |
| LoginRoute.LoginAnswers | express/src/routes/login.ts:19-104 | the possible codes with their statuses; error exactly when the code is not 20; an intercept code only with 29 |
| LoginRoute.LoginHidesFailureCause | express/src/routes/login.ts:38-60 | an answer of 23, 24 or 25 is 25 exactly on a sensitive API (which cause gives which code: LoginUnknownUser, LoginWrongPassword) |
| LoginRoute.LoginSuccess | express/src/routes/login.ts:33-99 | success means the user was found, the password accepted and the intercept let the login through; the answer carries the user's token pair and its refresh token is stored; both tokens carry the user's id, the refresh token verifies at every later time and the access token at every later time before it expires (always, when `expiresIn` is 0) |
| LoginRoute.LoginStoreEffect | express/src/routes/login.ts:19-104 | the store is unchanged, or on success alone gains exactly one refresh token and no user |
| LoginRoute.LoginVetoStoresNothing | express/src/routes/login.ts:72-92 | an answer of 29 leaves the store unchanged and follows no `storeToken` call (that an intercept veto causes it: LoginVetoed) |
| LoginRoute.LoginVetoIsLastCall | express/src/routes/login.ts:72-85 | a veto carries the intercept's own code, and the intercept was the last hook called |
| LoginRoute.LoginUnknownUser | express/src/routes/login.ts:33-44 | a login the lookup finds nobody for answers 403/23 (25 when sensitive) after the lookups alone, storing nothing |
| LoginRoute.LoginWrongPassword | express/src/routes/login.ts:46-60 | a password `checkPassword` rejects for the found user answers 403/24 (25 when sensitive), stores nothing and never calls `storeToken` |
| LoginRoute.LoginIdentificationErrors | express/src/routes/login.ts:33-52 | a server error from the lookup, or from `checkPassword` on the found user, answers 500/5 and stores nothing |
| LoginRoute.LoginIssueErrors | express/src/routes/login.ts:72-92 | once the user is identified, a server error from the intercept or `storeToken` answers 500/5 and stores nothing |
| LoginRoute.LoginVetoed | express/src/routes/login.ts:72-85 | once the user is identified, an intercept veto answers 403/29 with its own code, stores nothing and never calls `storeToken` |
| LoginRoute.LoginSucceeds | express/src/routes/login.ts:33-99 | a found user, an accepted password, an allowing intercept and a working `storeToken` together give 201/20 with the user's token pair, storing exactly its refresh token |
| LoginRoute.ExampleUnknownLogin | express/src/routes/login.ts:38-44 | with the example lookups, a login nobody has answers 403/23 (25 when sensitive), after the two lookups only, with the store unchanged |
| LogoutRoute.Logout | express/src/routes/logout.ts:18-76 | the handler gives the logout flow's response, store and hook trace |
| LogoutRoute.RevokeToken | express/src/routes/logout.ts:51-71 | the handler's intercept and deletion agree with the revocation stage |
| LogoutRoute.LogoutRejectsEarly | express/src/routes/logout.ts:20-39 | a disabled route answers 403/31, a missing token 400/32, and a token that does not verify 403/33, all before any hook |
| LogoutRoute.LogoutAnswers | express/src/routes/logout.ts:18-76 | the possible codes with their statuses; error exactly when the code is not 10; an intercept code only with 39; never any data |
| LogoutRoute.LogoutSuccess | express/src/routes/logout.ts:64-71 | success means the token verified, was stored and was allowed by the intercept; `deleteToken` ran last on that exact token, and only the token's first record is gone |
| LogoutRoute.LogoutVetoKeepsToken | express/src/routes/logout.ts:51-62 | a veto (403/39) carries the intercept's code, keeps the store, and `deleteToken` never runs |
| LogoutRoute.LogoutStoreEffect | express/src/routes/logout.ts:18-76 | the store is unchanged, or on success alone loses exactly one refresh token and no user |
| LogoutRoute.LogoutUnknownToken | express/src/routes/logout.ts:41-49 | for a verifying token, a `checkToken` error answers 500/5 and an unstored token 404/34, each after that one call with the store unchanged |
| LogoutRoute.LogoutRevocationCauses | express/src/routes/logout.ts:51-71 | for an admitted token, an intercept error answers 500/5 and a veto 403/39 with its code, both keeping the token; then a `deleteToken` error answers 500/5 with the store unchanged, and otherwise 200/10 with the token revoked |
| RefreshRoute.Refresh | express/src/routes/refresh.ts:18-77 | the handler gives the refresh flow's response and hook trace |
| RefreshRoute.RefreshRejectsEarly | express/src/routes/refresh.ts:20-39 | a disabled route answers 403/41, a missing token 400/42, and a token that does not verify 403/43, all before any hook |
| RefreshRoute.RefreshAnswers | express/src/routes/refresh.ts:18-77 | the possible codes with their statuses; data only on 40; the store never changes and no storing or deleting hook is ever called |
| RefreshRoute.RefreshSuccess | express/src/routes/refresh.ts:36-72 | success means the refresh token verified, `checkToken` reported it stored without error, and the intercept let the refresh through; the new access token carries its id and verifies until it expires |
| RefreshRoute.RefreshUnknownToken | express/src/routes/refresh.ts:41-49 | for a verifying token, a `checkToken` error answers 500/5 and an unstored token 404/44, each after that one call |
| RefreshRoute.RefreshIssueCauses | express/src/routes/refresh.ts:51-72 | for an admitted token, an intercept error answers 500/5, a veto 403/49 with its code, and otherwise 201/40 with a new access token for the token's user id |
| CheckRoute.Check | express/src/routes/check.ts:18-80 | the handler gives the check flow's response and hook trace |
| CheckRoute.CheckRejectsEarly | express/src/routes/check.ts:20-39 | a disabled route answers 403/51, a missing token 400/52, and a refresh token that does not verify 403/53, all before any hook |
| CheckRoute.CheckAnswers | express/src/routes/check.ts:18-80 | the possible codes with their statuses; never any data; the store never changes and no storing or deleting hook is ever called |
| CheckRoute.UnknownSessionBeforeAccess | express/src/routes/check.ts:41-59 | when `checkToken` reports no error, a verifying refresh token that is not stored answers 404/54 whatever the access token is |
| CheckRoute.CheckSuccess | express/src/routes/check.ts:51-75 | success means a stored, verifying refresh token and a verifying access token, with the intercept letting it through |
| CheckRoute.CheckInvalidAccess | express/src/routes/check.ts:51-59 | for an admitted refresh token, an access token that does not verify under the access secret answers 403/55 after the `checkToken` call alone |
| CheckRoute.CheckAccessCauses | express/src/routes/check.ts:61-75 | for an admitted refresh token and a verifying access token, an intercept error answers 500/5, a veto 403/59 with its code, and otherwise 200/50 |
| Scenario.ExampleTables | express/example/index.ts:47-200 | the example application's callback in every use slot; its intercepts, which log and always allow, are modelled by `PassThrough`; the tables are valid |
| Scenario.RegisterNewUser | express/src/routes/register.ts:19-135 | fresh values that pass the example's checks create the user and answer 201/10 |
| Scenario.NewUserIdentified | express/src/routes/login.ts:33-60 | right after registering, the new user's e-mail address finds that user and the password passes |
| Scenario.LoginNewUser | express/src/routes/login.ts:19-104 | logging in right after registering answers 201/20 with the user's token pair and stores the refresh token |
| Scenario.CheckLoggedIn | express/src/routes/check.ts:18-80 | with a non-negative `expiresIn`, right after a login, check answers 200/50 while the refresh token is stored |
| Scenario.LogoutLoggedIn | express/src/routes/logout.ts:18-76 | logging out with the new refresh token answers 200/10 and restores the store to what it was before the login |
| Scenario.Session | express/src/routes/check.ts:41-49 | with a non-negative `expiresIn`, register, log in, check, log out, check: 10, 201/20, 200/50, 200/10 back to the registered store, then 404/54 with the same tokens |

## Left out

- JWT internals (HMAC, JSON, base64, `iat`) are not modelled. A token is the value signing puts into it, and anything else is `Raw` text that never verifies.
- Token verification is "same secret and the clock before the expiry". The clock is the `now` field of a `Foreign` parameter.
- bcrypt `hash` and `compare` and uuid `v4` are function parameters (`Foreign`). A `None` result stands for a thrown failure.
- `Number(field)` recognises only the empty string and plain decimal digits. Signs, decimals, exponents, `Infinity`, the `0x`, `0b` and `0o` prefixes and surrounding whitespace, which JavaScript also accepts, all read as NaN here. For a minimum-length field of "Infinity" the source then rejects every password (`length < Infinity` always holds), while the model reads NaN and imposes no minimum.
- The authorization header reaches the middleware already split into its space-separated words. Parsing text into a token has no model.
- TokenUtils.AccessTokenMiddleware: writing `res.locals.payload` and calling `next()` become the `Passed` verdict that carries the payload.
- Express plumbing is not modelled: `Router`, `Request`, `Response` and `res.status().json`. A response is a returned value. Routing a request to a handler is modelled by `Router.Dispatch`.
- Router.Dispatch: path matching is modelled as exact string equality. Express's default matching, which ignores letter case and tolerates one trailing slash (so "/Register" and "/register/" reach the register handler), is left out.
- When the combined lookup has already sent its 500, the caller's second send is Express behaviour. The two become one 500/5 answer.
- A thrown fault inside a handler's `try`, caught by its `catch` as 500/5, appears only through hooks that report a server error. A `Failing` host callback is such a hook.
- The hooks a host can register are only the example application's callbacks (`Example`) and one that reports a server error (`Failing`). Intercept callbacks are arbitrary functions of the flow's data.
- Events.UndefinedUseEvent: the error-level log line it writes is not modelled. Nor is any other logging, `logger.ts`, how `sensitiveLogs` changes log text, or the log lines of the example application's five intercepts (which otherwise always allow).
- Auth.AuthInstance.constructor: the router it builds is modelled separately by `Router.CreateAuthRouter` from the resolved configuration.
- Hooks are awaited strictly in sequence. There is no concurrency, so races between requests, such as check-then-store, are not modelled.
- The wiring of `express/example/index.ts` (`app.listen` and the demo calls) is not modelled, and neither are the re-exports of `express/src/index.ts`. Only its hook callbacks are modelled, by `ExampleHost`.
- Strings are sequences of characters. JavaScript's UTF-16 code-unit semantics for `.length` and `split("")` are not modelled.
- A hook call's trace (`AuthInstance.calls`) is ghost state. It records which hooks ran, in order, and has no counterpart in the running program.
