# Federated login service: a Dafny model of its core

This project models the core of a federated-login service written in Go. A
browser signs in through a third-party OAuth provider. The service binds the
login to its callback with a random CSRF state kept in the browser's session.
It finds or creates a local account for the provider identity and issues a
signed session token in a cookie. Other services then send that token back to
be checked.

The model covers four packages:

- `oauth/handlers.go` (module `OAuth`, file `oauth.dfy`). The return-address
  validator against an allow-list. The login handler, which resets the
  session and stores the state and the return address. The callback handler:
  its checks in their fixed order, the code exchange, account reconciliation,
  token issue, redirect and cookie.
  Reconciliation proceeds by provider user id, then by e-mail address (which
  links the provider), then by creating the account. It is specified by the
  pure function `Reconcile`. The method `OAuthHandler.ConstructUser` is
  proved equal to it.
- `app/app.go` (module `Application`, file `app.dfy`). Claims-based access
  to accounts, `WhoAmI`, unguarded account creation, and the token
  operations, which delegate to the token engine.
- `user/service.go` (module `Users`, file `user_service.dfy`). `Create` gives
  the account a fresh id and the default role `"user"`. The getters pass the
  store's answer through.
- `middlewares/middlewares.go` (module `Middlewares`, file
  `middlewares.dfy`). Handler chaining, in which the first middleware listed
  is outermost. The claims extractor. The redactor, which replaces the body of
  an internal-error response by `internal error, id: N`. The in-place header
  copy.

Two supporting modules:

- `models.dfy` (`Models`) holds the shared records and the error values.
  `Coded` stands for the service's status-carrying error built from a
  message. `Wrapped` stands for one built around a cause. `NotFound` is the
  store's distinguished miss.
- `repo.dfy` (`Repo`) stands for the repository interface, which is not part
  of this model. It is an in-memory store with three maps: accounts keyed by
  id, provider user id to account id, and e-mail address to account id, plus
  an optional failure per operation. This makes every error path of the
  handlers reachable. `Db` is the store as a value. `Store` is the object the
  service updates in place, and `Store.Snapshot()` ties the two together.
  `Valid` is the store's consistency invariant.

Collaborators that are not shown are parameters or function-valued fields:

- the random state generator;
- the URL parser;
- the provider clients (`buildLoginUrl`, `getUser`);
- the token engine (`createToken`, `decode`);
- claim extraction;
- the session store's save and load failures;
- the random response id of the redactor.

The ghost field `OAuthHandler.calls` records the provider exchanges and the
token issues. It is how the callback's contract states that a rejected
callback reaches neither.

Behaviour kept as the code has it, although a reader might expect otherwise:

- The allow-list search is first-match by host. The first entry whose host
  matches decides, and a later entry with the same host and the right scheme
  is never consulted. See `FirstEntryShadowsLaterOnes`.
- The cookie's `Domain` is the stored return string itself, not its host.
- The callback leaves the session as it was. The state is not cleared after
  use.
- Reconciliation's first step looks the account up by the provider-assigned
  user id alone. The provider kind plays no part.
- If the return address is refused, the state has already been saved.

## Model

| member | source | states |
|---|---|---|
| `OAuth.MatchAllowed` | oauth/handlers.go:83-93 | Accepts iff the first allow-list entry with the URL's host has the URL's scheme; refuses with "scheme is not allowed" iff that entry's scheme differs, and with "host is not allowed" iff no entry has the host; on acceptance gives the input string |
| `OAuth.ParseReturnTo` | oauth/handlers.go:68-94 | An empty value gives `""` without error; otherwise success iff the value parses, has a scheme, and passes the first-match allow-list, and then the value is returned verbatim; parse failure, missing scheme and unknown host give their own 400 errors; every failure is a 400 |
| `OAuth.FirstEntryShadowsLaterOnes` | oauth/handlers.go:83-90 | With `(http, h)` listed before `(https, h)`, an https address on `h` is refused as "scheme is not allowed" |
| `OAuth.LoginValues` | oauth/handlers.go:37-59 | The session a login leaves holds `state`, and `return` exactly when a non-empty return address was accepted, and nothing else |
| `OAuth.CallbackUrl` | oauth/handlers.go:61 | The callback URL is the app URL, `/oauth/callback/`, the provider kind, `/`, the provider name |
| `OAuth.OAuthHandler.ServeLogin` | oauth/handlers.go:28-66 | Unknown provider: 400 and the session untouched; otherwise the session is reset, then holds the state (saved before the return address is checked), then the return address when valid and non-empty; each failing step (state generation, either save, an invalid return address) fails with no redirect written; on success the stored session is `LoginValues(state, return)` and the writer gets status 302 and `Location` set to the provider's login URL built from the same state and the callback URL |
| `OAuth.Session.Save` | oauth/handlers.go:45-58 | A successful save makes the stored session equal to the in-memory values; a failing save changes nothing stored and reports the store's error |
| `OAuth.Session.Load` | oauth/handlers.go:117-120 | A successful load replaces the in-memory values by the stored ones; a failing load reports the store's error; the stored session never changes |
| `OAuth.CheckCallback` | oauth/handlers.go:102-129 | Passes iff the form parses, the `error` parameter is empty, `state` is non-empty, the session loads and holds exactly that string as `state`, and `code` is non-empty; then gives the code; otherwise the first failing check, in that order, decides the error: "failed to parse form", the provider's own `error` message, "state not found", "failed to get session", "state mismatch", "code not found"; every failure is a 400 |
| `OAuth.CallbackAcceptsLoginState` | oauth/handlers.go:112-129 | A callback carrying the state its login stored, with a code and no provider error, passes the checks |
| `OAuth.CallbackRejectsForeignState` | oauth/handlers.go:122-124 | A callback carrying any other non-empty state is refused as a state mismatch, whatever its code |
| `OAuth.CallbackRejectsEmptySession` | oauth/handlers.go:117-124 | A session that no login wrote lets no callback pass |
| `OAuth.StoredReturn` | oauth/handlers.go:146-153 | The stored return address is the `return` value when present and a string, the empty string otherwise |
| `OAuth.RedirectTarget` | oauth/handlers.go:146-167 | The redirect target is never empty: the stored return address, or `/` when there is none |
| `OAuth.SessionCookie` | oauth/handlers.go:155-163 | The cookie carries the token under the configured name, with path `/`, HTTP-only, same-site lax, secure iff the app URL's scheme is not `http`, and domain equal to the stored return string |
| `OAuth.CallbackTargetsLoginReturn` | oauth/handlers.go:146-167 | After a login with return address `r`, the callback redirects to `r` (to `/` when `r` is empty) and sets the cookie's `Domain` field to `r` |
| `OAuth.RedirectIsAllowListed` | oauth/handlers.go:49-59 | Whatever return parameter a login accepted, the callback's redirect target is `/` or an address that passes the allow-list |
| `OAuth.OAuthHandler.ServeCallback` | oauth/handlers.go:96-173 | Unknown provider, then the checks of `CheckCallback` in order: each refusal is its 400 error with no provider exchange, no token, no store change and nothing written; then a failed exchange is a 500 with no token; then the store becomes `Reconcile`'s result and a reconciliation error is returned as is; then a token failure is a 500; on success the cookie `SessionCookie(...)` is set, `Location` is `RedirectTarget` of the loaded session and the status is 302; the stored session is never cleared |
| `OAuth.Reconcile` | oauth/handlers.go:176-206 | A hit by provider user id returns that account with the store unchanged; a lookup by provider user id failing other than NotFound, then a lookup by e-mail address failing other than NotFound, a failed provider link after an e-mail hit, and a failed create after two NotFound misses each end the chain with their own 500 error ("failed to get user", "failed to add user provider", "failed to create user") and the store unchanged; every failure leaves the store unchanged and is a 500; a store without failures always succeeds; on success in a consistent store the provider user id leads to the returned account, which is stored; existing accounts are never altered |
| `OAuth.OAuthHandler.ConstructUser` | oauth/handlers.go:176-206 | The account returned and the store afterwards are exactly those of `Reconcile` on the store before |
| `OAuth.ReconcileKeepsValid` | oauth/handlers.go:186-205 | Reconciliation keeps the store consistent |
| `OAuth.ReconcileFallsThroughOnlyOnNotFound` | oauth/handlers.go:178-197 | The store changes only after a NotFound miss by provider id, and gains an account only after a NotFound miss by e-mail address too |
| `OAuth.ReconcileIdempotent` | oauth/handlers.go:178-181 | Reconciling the same provider identity again returns the same account and changes nothing: no second account, no second link |
| `OAuth.ReconcileLinksByEmail` | oauth/handlers.go:187-194 | A new provider identity whose e-mail address belongs to an account links to that account and returns it, adding no account |
| `OAuth.ReconcileCreatesOnDoubleMiss` | oauth/handlers.go:199-205 | An identity unknown by provider id and by e-mail address gets exactly one new account: the provider's record stamped with the fresh id and the default role, linked to the provider user id |
| `OAuth.LoginThenCallback` | oauth/handlers.go:28-173 | With no return address and a store without failures: the login redirects to the provider's login URL for the generated state; the callback with that state and a code redirects to `/` with one cookie holding the token for the reconciled account, which is stored and linked to the provider user id |
| `Application.PublicKey` | app/app.go:25-27 | The token engine's public key, unchanged |
| `Application.CreateToken` | app/app.go:29-31 | The token engine's signing result or error, unchanged |
| `Application.DecodeToken` | app/app.go:33-35 | The token engine's decoded claims or error, unchanged |
| `Application.GetUserByID` | app/app.go:51-67 | No claims: unauthorized; claims for another id: forbidden; otherwise the store's account or error unchanged; success only for the caller's own id |
| `Application.GetUserByProviderID` | app/app.go:69-85 | No claims: unauthorized; a role other than admin: forbidden; otherwise the store's answer unchanged; success only for admins |
| `Application.NoClaimsNoLookup` | app/app.go:52-73 | Without claims every guarded lookup is unauthorized, whatever the store holds |
| `Application.WhoAmI` | app/app.go:37-49 | A decode failure is returned as is; a decoded token gives exactly what `GetUserByID` gives for the token's user id (the store's record, "forbidden" on a different caller, or the store's error); success iff the token decodes, the caller has claims for the token's user id, and the store has that account, which then carries that id |
| `Application.CreateUser` | app/app.go:87-94 | No authorization check; the service's stamped account or the store's error is forwarded |
| `Users.Stamped` | user/service.go:21-23 | The stored record has the fresh id and role `"user"` and otherwise the caller's name and e-mail address |
| `Users.StampedIgnoresIdAndRole` | user/service.go:22-23 | Whatever id and role the caller supplied, the stored record is the same |
| `Users.Service.Create` | user/service.go:21-33 | The caller's record is stamped in all cases; a store failure is returned with no account and the store unchanged; otherwise the stamped record is returned and stored under the fresh id |
| `Users.Service.GetByID` | user/service.go:35-44 | The store's account or error for that id, unchanged |
| `Users.Service.GetByProviderID` | user/service.go:46-55 | The store's account or error for that provider user id, unchanged |
| `Users.GetByIDReturnsThatAccount` | user/service.go:35-44 | In a consistent store a successful lookup returns the account with exactly the requested id |
| `Middlewares.Chain` | middlewares/middlewares.go:15-20 | The loop from the last middleware to the first builds `ms[0](ms[1](...ms[n-1](h)))`; with no middlewares it returns `h` |
| `Middlewares.ComposedAppend` | middlewares/middlewares.go:15-20 | Chaining `a + b` around `h` is chaining `a` around the chain of `b` |
| `Middlewares.ChainFunc` | middlewares/middlewares.go:22-24 | The same handler as `Chain` on the handler function |
| `Middlewares.WithMiddleware` | middlewares/middlewares.go:26-28 | Wrapping in one middleware is a chain of one |
| `Middlewares.ChainIsRepeatedWrapping` | middlewares/middlewares.go:15-28 | Appending a middleware to a chain is the chain around that middleware applied to the handler |
| `Middlewares.Overwritten` | middlewares/middlewares.go:72-76 | Every source key maps to its source value, keys present only in the destination keep their values, and no other key appears |
| `Middlewares.CopyHeaders` | middlewares/middlewares.go:72-76 | The destination map afterwards is the old destination overwritten by the source |
| `Middlewares.Redact` | middlewares/middlewares.go:54-67 | An inner 500 becomes a 500 whose body is exactly `internal error, id: N` with `N` the decimal id below 1000000; any other status, and its body, pass through; headers are the outer ones overwritten by the inner ones |
| `Middlewares.RedactHidesInternalBody` | middlewares/middlewares.go:54-62 | Two internal errors that differ only in body are redacted identically |
| `Middlewares.Decimal` | middlewares/middlewares.go:59 | The `%d` rendering of the response id is a non-empty string of decimal digits with no leading zero (the only string starting with `0` is `0` itself) |
| `Middlewares.RedactedBodyNamesId` | middlewares/middlewares.go:55-59 | The id can be read back from the redacted body, so different ids give different bodies |
| `Middlewares.DecimalRoundTrip` | middlewares/middlewares.go:59 | Reading the decimal digits printed for `n` gives back `n` |
| `Middlewares.InternalErrorRedacter` | middlewares/middlewares.go:48-70 | The middleware's response is `Redact` of the inner handler's response with that request's id |
| `Middlewares.WithExtractedClaims` | middlewares/middlewares.go:33-38 | Claims are attached only when extraction succeeded; otherwise the request is untouched |
| `Middlewares.ClaimsExtractor` | middlewares/middlewares.go:30-44 | The response is the inner handler's on the request with claims attached when extraction succeeded, and on the request unchanged otherwise |

## Left out

- State generation: the random bytes and their base64 encoding are left out. The generator's result, or its failure, is an input of `ServeLogin`.
- The token engine: EdDSA signing, PEM key parsing, expiry and the signing-algorithm check live in a JWT library. `authorizer/authorizer.go` is not part of this model beyond the abstract `createToken`/`decode` and the public key.
- HTTP machinery: `http.Redirect`'s body and content type, cookie serialisation, and `r.FormValue`/`r.ParseForm` parsing are left out. Form parsing is a possible failure plus a map of values.
- The session store's persistence is left out. Saving and loading are calls that may fail. The cookie that each save writes to the response is not modelled.
- URL parsing is an abstract, possibly failing function from a string to a `{scheme, host, text}` record.
- Logging (`slog`, `log.Printf`) has no observable effect here and is left out.
- The redactor's random id is a parameter below 1000000.
- Provider clients (building login URLs, exchanging codes) are network clients. They are abstract function fields of `Provider`.
- Claim extraction from a request and reading claims from a context are abstract. The context's claims are a field of `Request`.
- Concurrency is left out. Two concurrent reconciliations of the same new identity can create two accounts. The model is sequential.
- The provider registry lookup is not part of this model. A miss is the error `NoSuchProvider(id)`, wrapped as a 400.
- The e-mail lookup, the provider link and the repository's create call are not part of this model. They are the in-memory store's `FindByEmail`, `AddProvider` and `CreateUser`.
- The callback passes the provider link to `Create` as a third argument, while `user/service.go` takes two. `Users.Service.Create` takes the link as an optional argument: none for `Application.CreateUser`, some for the callback.
- The value of the admin role constant is not part of this model. It is taken to be `"admin"`.
- How an error value becomes an HTTP response at the boundary is not part of this model. Errors carry their status and message.
- Application.CreateUser: does not return the caller's record, which `Create` has stamped in place. `Users.Service.Create` returns it as `stamped`.
- Middlewares.InternalErrorRedacter: a handler is a function from a request to its response, so the outer writer's headers are taken as empty. `Redact` states the general overwrite.
- NotFound matching: the callback uses `errors.Is(err, repo.ErrNotFound)`, which also sees a NotFound wrapped inside another error. `Reconcile` compares with `NotFound` directly. The in-memory store's failures are never a wrapped NotFound, so no modelled input tells them apart, but a store that wraps NotFound is not modelled.
- Cookie serialisation: `http.SetCookie` drops a `Domain` that is not a plain domain name, and every accepted return address has a scheme, so the browser receives a host-only cookie. The model states the `Domain` field as the code sets it and does not model this serialisation step.
- OAuth.OAuthHandler.ServeLogin: the `Save` calls' own writes to the response (the session cookie) are not stated, and neither is the body `http.Redirect` writes.
