# SAML relay, account registry and expiring caches

This project models the in-process logic of an authentication service that sits between an
upstream SAML identity provider and a downstream service provider, and proves properties of
the model:

- **The SAML relay** (`routes/saml.js`) has a per-browser session (`requestId`,
  `authnRequest`, the logged-in `user`) and two shared caches. The legacy `/login` intake
  turns a parsed AuthnRequest into a session descriptor, writes the placeholder
  `SAML:legacy:placeholder` into `requests` under the request id, and redirects to
  `login/<id>`. `/login/:id` records the request id in the session. `/success` looks that id
  up in `requests`. The placeholder selects the legacy branch: the user is cached under its
  name id, and a signed response is built from the descriptor and posted back to the
  requester's ACS URL with its RelayState. Any other lookup result, absent included, is the
  key the user is cached under. `/validate` maps the validator's outcome to a reply.
  Single logout destroys the session.
- **The account registry** (`containers/oidc/support/account.js`) is find-or-create over two
  maps, `store` and `logins`. An account's claims always carry `sub` equal to its id.
- **The expiring caches** (`lib/store.js`) are `users` (an hour after write, five minutes after
  the last read) and `requests` (ten minutes after write, five minutes after the last read).
  Each is swept every five minutes.

Module layout:

- `options.dfy`: `Option`, `Result` and JavaScript string truthiness.
- `ttl.dfy`: the cache as pure functions over a map of entries, each entry with a write stamp
  and a read stamp. It also holds a trace semantics (`Run` over `Write`/`Read`/`Sweep`
  operations) with its lemmas, and the class `ExpiringCache` whose methods are proved
  against those functions.
- `store.dfy`: the two configured caches and the properties of their constants.
- `account.dfy`: `Account` and `Registry`.
- `saml.dfy`: the session, the handlers and the response assembly.
- `saml_flows.dfy`: whole exchanges on fresh objects.

Time is the millisecond clock reading `now`, passed explicitly to every cache operation.
Library calls are inputs. The AuthnRequest parser's outcome is a `ParseResult`. The
response signer is a function `Signer`. Base64 encoding is a function `encode`. The
validator's outcome is a `Validation`. The UUID generator's output is an argument
`generated` of type `Uuid`.

## Model

| member | source | states |
|---|---|---|
| `Ttl.Lookup` | lib/store.js:17-30 | a get returns a value exactly when the key is present and live by both rules, and then it is the stored value, read less than writeTtl after the write and less than readTtl after the last read |
| `Ttl.Written` | lib/store.js:17-30 | a set stores the value under the key with fresh write and read stamps and leaves every other key as it was |
| `Ttl.Touched` | lib/store.js:17-30 | a get moves only the read stamp of a live entry; values, write stamps, keys and other entries are unchanged |
| `Ttl.Swept` | lib/store.js:21 | a cleanup keeps exactly the live entries, unchanged |
| `Ttl.WriteStampSurvives` | lib/store.js:18 | across any operations without a new set of k, the value and write stamp of k persist unless it is removed (reads do not extend the write deadline) |
| `Ttl.IdleEntryFrozen` | lib/store.js:19 | across operations that neither set nor get k, k's entry is unchanged or gone |
| `Ttl.LatestWriteWins` | lib/store.js:17-20 | after set(k, v) at t and no later set of k, any value returned for k is v and is returned less than writeTtl after t, however often it was read |
| `Ttl.IdleEntryExpires` | lib/store.js:19 | an entry neither set nor read for readTtl is not returned |
| `Ttl.AbandonedEntrySwept` | lib/store.js:27-31 | a key set at t and never set again is removed by any sweep at or after t + writeTtl |
| `Ttl.SweepUnobservable` | lib/store.js:21 | sweeping at t does not change what any get at a time at or after t returns |
| `Ttl.LazyRemovalUnobservable` | lib/store.js:17-30 | removing a single entry already expired at t does not change any get at a time at or after t |
| `Ttl.SweepIdempotent` | lib/store.js:21 | a second sweep at the same time removes nothing more |
| `Ttl.ExpiringCache.constructor` | lib/store.js:17-20 | a new cache has the given lifetimes and no entries |
| `Ttl.ExpiringCache.Set` | lib/store.js:17-30 | the entries become `Written` of the old entries |
| `Ttl.ExpiringCache.Get` | lib/store.js:17-30 | returns `Lookup` of the old entries; the entries become `Touched` |
| `Ttl.ExpiringCache.CleanUp` | lib/store.js:21 | the entries become `Swept` of the old entries |
| `Store.Caches.constructor` | lib/store.js:17-36 | two distinct fresh empty caches, `users` with 60/5-minute and `requests` with 10/5-minute lifetimes |
| `Store.Caches.CleanUpUsers` | lib/store.js:21 | sweeps `users` only |
| `Store.Caches.CleanUpRequests` | lib/store.js:31 | sweeps `requests` only |
| `Store.UserWithinHourOfWrite` | lib/store.js:17-20 | a cached user is returned only within 60·60·1000 ms of its last set, with that set's value |
| `Store.RequestWithinTenMinutesOfWrite` | lib/store.js:27-30 | a pending request is returned only within 10·60·1000 ms of its last set, with that set's value |
| `Store.IdleForFiveMinutesExpires` | lib/store.js:17-30 | in either cache an entry untouched for 5·60·1000 ms after its last read is not returned |
| `Store.FirstTickAtOrAfter` | lib/store.js:31 | the first sweep tick at or after a time comes less than one period after it |
| `Store.AbandonedRequestRemoved` | lib/store.js:27-31 | an abandoned pending request is gone after the first sweep at least ten minutes after its write, which comes less than fifteen minutes after it |
| `Accounts.Account.constructor` | containers/oidc/support/account.js:6-8 | the account id is the given id when truthy, otherwise the generated one |
| `Accounts.Account.Claims` | containers/oidc/support/account.js:18-49 | the claim set always has `sub` equal to the account id |
| `Accounts.ClaimsIgnoreUseAndScope` | containers/oidc/support/account.js:18-20 | claims do not depend on use or scope |
| `Accounts.ClaimsDifferOnlyInSub` | containers/oidc/support/account.js:18-49 | two accounts' claims agree on every field except `sub` |
| `Accounts.Get` | containers/oidc/support/account.js:63-67 | a Map lookup finds a value only for a present key; an undefined key finds nothing |
| `Accounts.Registry.constructor` | containers/oidc/support/account.js:1-2 | both maps start empty |
| `Accounts.Registry.FindByLogin` | containers/oidc/support/account.js:51-57 | returns the recorded account for a known login and changes nothing; otherwise records a fresh account with the generated id under that login alone; `store` is untouched |
| `Accounts.Registry.FindById` | containers/oidc/support/account.js:59-68 | a present id returns its account and changes nothing; otherwise one fresh account is recorded under its own id and nothing else changes; the result is the lookup of the id: for a truthy id the account with that id, for a falsy id absent |
| `Accounts.FindByLoginTwice` | containers/oidc/support/account.js:51-57 | two calls with one login return the same object and add at most that login |
| `Accounts.FindByIdTwice` | containers/oidc/support/account.js:63-67 | two calls with one truthy id return the same account with that id; `store` grows by at most that id |
| `Accounts.FindByFalsyId` | containers/oidc/support/account.js:63-67 | a falsy id grows `store` by one generated entry and returns absent |
| `Saml.UserOf` | routes/saml.js:53-57 | the user copies `nameID`, `nameIDFormat` and `sessionIndex` from the profile |
| `Saml.UserOfIgnoresOtherAttributes` | routes/saml.js:53-57 | the user depends on those three profile fields only |
| `Saml.Describe` | routes/saml.js:104-112 | the descriptor copies RelayState, id, issuer, destination, ACS URL and context; `forceAuthn` holds iff the parsed value is exactly "true" |
| `Saml.PostUrl` | routes/saml.js:15-19 | the ACS URL of `req.authnRequest` (an input no handler here sets) when it exists and is truthy, otherwise the configured SP ACS URL |
| `Saml.LegacyResponseOptions` | routes/saml.js:146-154 | fails with a TypeError iff the session has no descriptor or it has no context; otherwise audiences = issuer, recipient = ACS URL, inResponseTo = id, authnContextClassRef from the context, lifetime 3600 s, sessionIndex unset, issuer the IdP's |
| `Saml.SamlpUserOf` | routes/saml.js:156-164 | the signer's user keeps the session user's fields and gets id = nameID, emails [null], an empty display name and empty given and family names |
| `Saml.LegacyReply` | routes/saml.js:165-177 | a form is rendered only when options and signing succeed, carrying the descriptor's ACS URL, the encoded signed response and the descriptor's RelayState; a signing error renders nothing; a missing descriptor or context is a server error |
| `Saml.LegacyReplyAnswersRequest` | routes/saml.js:104-175 | the response built from an intake's descriptor has audience, recipient and in-response-to of the parsed request, and the form goes back to its ACS URL with its RelayState |
| `Saml.ValidateReply` | routes/saml.js:188-198 | an error answers 400 with its text; a logout indication without error answers 400 "error: logged out?"; only otherwise is the profile returned |
| `Saml.Session.constructor` | routes/saml.js:79-82 | a new session holds no request id, descriptor or user |
| `Saml.PendingValue` | routes/saml.js:140 | a pending value is found exactly when the session has a request id whose `requests` entry is present and live, and it is that entry's stored value |
| `Saml.LoginWithId` | routes/saml.js:79-85 | sets the session's request id to the path id, changes nothing else, and continues to the upstream login |
| `Saml.SsoLogin` | routes/saml.js:53-123 | a successful upstream login stores the verify callback's user in the session unchanged and redirects to `/saml/success` |
| `Saml.LegacyLogin` | routes/saml.js:87-118 | a parse error renders the prefixed message and writes nothing; no data answers nothing; success stores `Describe` of the data in the session, the placeholder under the id in `requests`, and redirects to `login/<id>` |
| `Saml.Success` | routes/saml.js:131-184 | unauthenticated: redirect to `/`, caches unchanged; otherwise the request entry is read (never deleted); for the placeholder `users[nameID] = user` and the legacy reply; for any other lookup result `users[result] = user` and the details page |
| `Saml.HandleSlo` | routes/saml.js:204-207 | the session is emptied and the browser redirected to `/`; no cache is touched |
| `SamlFlows.LegacyExchange` | routes/saml.js:87-184 | intake then completion within five minutes yields the legacy reply answering the parsed request, a server error iff it had no context, the user cached under its name id, and the placeholder still pending |
| `SamlFlows.ReplayedLegacyCompletion` | routes/saml.js:139-177 | a second completion of the same legacy session yields another legacy reply, from its own signing call, to the same ACS URL and RelayState |
| `SamlFlows.LateLegacyCompletion` | routes/saml.js:139-183 | a legacy completion five minutes or more after intake renders the details page and caches the user under an absent key |
| `SamlFlows.NormalExchangeThenLogout` | routes/saml.js:178-207 | a normal completion caches the user under the pending user id, and logout leaves that entry in place |
| `SamlFlows.ParseErrorWritesNothing` | routes/saml.js:90-95 | a parse error renders the prefixed message with no pending entry and no descriptor |
| `SamlFlows.UnauthenticatedSuccess` | routes/saml.js:131-137 | `/success` without a user redirects to `/` and leaves both caches as they were |

## Behaviour worth knowing

- A completion whose request id is missing or expired, or is a normal request id already
  used, does not fail. The lookup result, possibly absent, becomes the `users` key and the
  details page is rendered (routes/saml.js:140, 180; `SamlFlows.LateLegacyCompletion`). A
  legacy request id used again while its placeholder is live takes the legacy branch again
  (next bullet).
- Request ids are not single-use. Completion reads the `requests` entry but never removes it,
  so a replayed legacy completion issues another response (routes/saml.js:139-177;
  `SamlFlows.ReplayedLegacyCompletion`).
- A legacy request without a requested context is not answered without that field. The user
  is cached first (routes/saml.js:144), then reading the context throws (routes/saml.js:151;
  `Saml.LegacyResponseOptions`).
- The legacy descriptor lives in the session (routes/saml.js:104). `requests` holds only the
  placeholder string (routes/saml.js:113). In the normal path the user is cached under the
  value found in `requests`.
- Logout destroys the session only (routes/saml.js:205). It does not clear any `users` entry
  (`SamlFlows.NormalExchangeThenLogout`).

## Left out

- AuthnRequest parsing, response XML construction and signing, response validation and
  base64 encoding are library work. They enter as a `ParseResult`, a `Signer`, a `Validation`
  and an `encode` function.
- A `Signer` stands for one signing call. The signer's clock, its random response ids and
  the validity window it stamps are not modelled, so two calls may sign differently.
- Metadata publication (routes/saml.js:72-77) is XML built by libraries.
- The login-failed page (routes/saml.js:125-129) and the `/logout` route
  (routes/saml.js:200-202) only render or redirect through passport.
- Passport's authenticate middleware is modelled by `Authenticate` and `SsoLogin`. Its
  redirects, failure handling and session (de)serialisation (routes/saml.js:60-70, 83-85,
  120-123, 210-211) are not modelled beyond storing the user unchanged.
- Configuration read from the environment or from certificate files (routes/saml.js:12-37) is
  left out. The SP ACS URL is an argument of `PostUrl`. The certificate, key and endpoint
  paths are not part of `ResponseOptions`.
- Express routing, cookies, session persistence and `res.render` are left out. A rendered
  page is an `Outcome` value. The error object passed to the error page and the
  `console.error` logging are dropped.
- Redirect targets are not resolved as URLs. The flows assume that `login/<id>` arrives at
  `/login/:id` with the same id.
- The `setInterval` timers and any interleaving of sweeps with requests are left out. A sweep
  is an explicit `CleanUp(now)` call, and timer ticks appear only as multiples of the period
  in `Store.FirstTickAtOrAfter`.
- The caching library's internal eviction algorithm and capacity handling are left out. The
  model keeps only the time-stamp contract its builder calls configure: live strictly before
  either deadline, a set resets both stamps, a successful get resets the read stamp. Whether
  the library drops an expired entry on a get is not modelled. `Ttl.LazyRemovalUnobservable` shows
  that removing one expired entry could not change any later get, and `Ttl.SweepUnobservable`
  shows the same for a whole sweep.
- UUID generation is an argument. `findById`'s unused `ctx` and `token` parameters are
  omitted, and `claims` is a plain function (its asynchrony does not matter here).
- Parsed AuthnRequest fields are modelled as optional strings, with the id always present and
  the requested context an optional `Context` record. `users` keys are optional strings, so
  an undefined key can be represented.
- The profile's `nameID` is always a string: the model assumes the SAML library always
  supplies one, so the legacy branch's `users.set(req.user.nameID, …)` (routes/saml.js:144)
  never uses an undefined key.
- Values in `requests` are modelled as strings, the way routes/saml.js:113 and 140-141 use
  them. The comment at lib/store.js:23-26 describes them as objects with an `id` property;
  that shape is not modelled.
- fabfile.py is deployment scripting with no logic of the service.
