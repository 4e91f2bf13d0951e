# Login and session control of NEW-PORTO, modelled in Dafny

The model covers the authentication core of the portfolio site's admin area. It has two halves.

On the server:
- the login endpoint, with its fixed-window failed-attempt limiter and its capped login log;
- the token refresh and token verify endpoints;
- the shared API middleware: bearer-token check, client address, CSRF token and method checks, the sliding-log request limiter, and the `protectedApiHandler` gate.

On the client:
- the validators and formatters of `authHelpers`, and the exponential-backoff limiter it creates;
- the `useAuth` composable: the session refs mirrored in local storage, login, logout/`clearAuth`, the expiry check, the single session timer, and the request and 401-response interceptors.

Modules, one per source file, plus a few shared ones:

| module | file | models |
|---|---|---|
| `Wrappers` | wrappers.dfy | `Option` |
| `JsMath` | js_math.dfy | `Math.ceil`/`Math.floor` of a quotient, powers of two |
| `JsString` | js_string.dfy | the `\s` class, `String(n)`, `parseInt`, `split(sep)[0]` |
| `Http` | http.dfy | responses as records: status, JSON body fields, cookies |
| `Tokens` | tokens.dfy | token claims and lifetimes, the `Bearer` header, the JWT library as an oracle |
| `Middleware` | middleware.dfy | api/middleware.js |
| `Login` | login.dfy | api/auth/login.js |
| `Refresh` | refresh.dfy | api/auth/refresh.js |
| `Verify` | verify.dfy | api/auth/verify.js |
| `AuthHelpers` | auth_helpers.dfy | src/utils/authHelpers.js |
| `UseAuth` | use_auth.dfy | src/composables/useAuth.js |

Code that changes state in place is modelled as classes:
- `Middleware.RequestLog` holds the `requestLog` map.
- `Login.LoginServer` holds `loginAttempts` and `loginLogs`.
- `AuthHelpers.RateLimiter` holds the limiter's closure variables.
- `UseAuth.Session` holds the refs, local storage and the timer queue.

The server methods and the backoff limiter are proved equal to a pure specification function of the old state: `RateStep`/`CheckRateLimitSpec`, `GateSpec`, `RateCheck`/`Record`/`HandleLogin` and `CanAttemptSpec`. The properties are then proved about those functions. The methods of `UseAuth.Session` state their new refs, storage and timers directly, in terms of `LoggedIn`, `StoreLogin`, `CLEARED` and `Restored`.

Design decisions:
- **Time.** `Date.now()` becomes a parameter `now`. Where one source function reads the clock several times, the model takes one instant.
- **JWT library.** `jwt.sign` is an oracle `Claims -> Option<string>`, where `None` means it threw. `jwt.verify` is an oracle `string -> JwtOutcome`: decoded claims, expired, malformed, or another error. Properties that need tokens to round-trip assume `Tokens.FreshTokensVerify`: a signed token is non-empty and verifies to its own claims.
- **Client timers.** Browser timers are a map from timer id to due time. Firing one is the method `Session.FireTimeout`.
- **Local storage.** It is modelled as a map over the five keys the session uses.
- **The refresh call.** The client interceptor's call to the refresh endpoint is a parameter: the token it returned, or `None` when it failed.

Where the source's own comments or code suggest a different behaviour than the code has, the model follows the code:
- **After a successful login.** The comment at api/auth/login.js:158 says the rate limit is reset. The code that follows deletes the record, but then records the success itself as attempt 1 of a new window (api/auth/login.js:159-162). So from then on only four failures get 401, and the fifth is blocked. It is not a fresh allowance of five. This is proved in `Login.SuccessThenFailures`.
- **The window boundary.** The comment at api/auth/login.js:26 says the record resets once the window has passed. A blocked client whose window started exactly 15 minutes ago is still blocked, though: the reset needs `now - firstAttempt > ATTEMPT_WINDOW`. The reported `remainingTime` is then 0. `Login.RateCheck` states this exactly: the remaining time is positive iff the elapsed time is below the window.
- **Splitting `X-Forwarded-For`.** The middleware splits the header on `';'` (api/middleware.js:72). The login endpoint, reading the same header, splits it on `','` (api/auth/login.js:114). Both are modelled as written.

## Model

| member | source | states |
|---|---|---|
| JsMath.CeilDiv | api/auth/login.js:33 | the result is the least integer whose multiple of the divisor reaches the dividend (`Math.ceil` of the quotient) |
| JsMath.FloorDiv | src/utils/authHelpers.js:81-82 | the result is the greatest integer whose multiple of the divisor does not exceed the dividend (`Math.floor` of the quotient) |
| JsString.FirstField | api/middleware.js:72 | the result is a prefix of the input without the separator, and is followed by the separator unless it is the whole input (`split(sep)[0]`) |
| JsString.ParseIntOfIntToString | src/composables/useAuth.js:22 | `parseInt(String(i)) === i` for every integer, so an expiry the client wrote reads back exactly |
| JsString.ParseIntOfLeadingNumber | src/utils/authHelpers.js:84-88 | `parseInt` of a number followed by a non-digit text is that number |
| Tokens.BearerToken | api/middleware.js:12-16 | a token is found iff the header is present and starts with `"Bearer "`, and the header is then that prefix followed by the token |
| Tokens.BearerRoundTrip | src/composables/useAuth.js:34-36 | the header the client's request interceptor builds yields the same token to the server |
| Middleware.VerifyJwtToken | api/middleware.js:8-34 | valid iff a bearer token is found and decodes; a valid result carries the decoded username and no error; each error message appears iff its case holds (no token, expired, malformed, other error) |
| Middleware.VerifyAttachedToken | api/middleware.js:12-23 | a `Bearer` header built from a token is valid iff the library decodes the token, with its username as the user |
| Middleware.GetClientIp | api/middleware.js:70-74 | the address is never empty: the text before the first `';'` of a non-empty forwarded header, `"unknown"` when that text is empty, otherwise the remote address or `"unknown"` |
| Middleware.ValidateCsrfToken | api/middleware.js:123-126 | accepted iff a token is present and longer than 20 characters |
| Middleware.ValidateMethod | api/middleware.js:134-137 | accepted iff the verb is the single allowed one or a member of the allowed list |
| Middleware.InWindow | api/middleware.js:95 | keeps exactly the logged times `t` with `now - t < windowMs`, never more than the log |
| Middleware.Min | api/middleware.js:98 | the result is an element of the list and no element is below it |
| Middleware.RateStep | api/middleware.js:85-116 | allowed iff the key is new or fewer than `maxRequests` times are in the window; a new key stores `[now]` with `maxRequests - 1` left; an allowed request stores the window plus `now`; a denial stores nothing, has 0 left, and with `maxRequests >= 1` a retry-after of at least one second |
| Middleware.CheckRateLimitSpec | api/middleware.js:83-116 | only the key's log changes, the key is added if new, and a denial leaves the whole map unchanged |
| Middleware.RequestLog.CheckRateLimit | api/middleware.js:85-116 | the answer and the new map are those of `CheckRateLimitSpec` on the old map |
| Middleware.PruneWindow | api/middleware.js:95 | the loop's result is `InWindow` of the log |
| Middleware.Oldest | api/middleware.js:98 | the loop's result is `Min` of a non-empty window |
| Middleware.InWindowAppend | api/middleware.js:95 | filtering a concatenation is the concatenation of the filtered parts |
| Middleware.InWindowNested | api/middleware.js:95 | filtering a log already filtered at an earlier time equals filtering the log directly |
| Middleware.InWindowShrinks | api/middleware.js:95 | as time advances, the window's count never grows |
| Middleware.ReplayAgrees | api/middleware.js:95-109 | for calls in time order the stored log, filtered at any later time, equals the allowed calls filtered at that time |
| Middleware.ReplayDecision | api/middleware.js:97-109 | each decision equals the one a complete history of allowed calls would give |
| Middleware.AtMostMaxInWindow | api/middleware.js:95-109 | with `maxRequests >= 1`, never more than `maxRequests` allowed calls lie in one window |
| Middleware.GateSpec | api/middleware.js:146-199 | the checks run in order: preflight, then 405 for a wrong method, then 401 with the verification's message, then 429, then the handler (500 when it throws); the limiter is only touched past the first three; `req.user` is set from a valid token |
| Middleware.GateRetryAfterPositive | api/middleware.js:181-189 | a request denied by the API limit (30 per minute) gets 429 with a retry-after of at least one second |
| Middleware.ProtectedApiHandler | api/middleware.js:146-199 | the response, the new limiter map and `req.user` are those of `GateSpec` |
| Login.ConfiguredCredentials | api/auth/login.js:17-19 | a truthy environment username or password is taken, otherwise `'2117'`; neither is ever empty |
| Login.LoginClientIp | api/auth/login.js:114 | the text before the first `','` of a truthy forwarded header, unless that text is empty, in which case the remote address |
| Login.RateCheck | api/auth/login.js:22-38 | never adds a record; deletes the client's record iff its window has lapsed, and then allows; blocks iff the record is in its window with 5 or more attempts; the remaining minutes are the ceiling of the time left, non-negative, and positive iff the window has not ended |
| Login.AppendLog | api/auth/login.js:57-63 | appends the entry and drops the oldest one past 1000, so the log never exceeds 1000 entries |
| Login.Record | api/auth/login.js:41-64 | increments the client's count, or starts it at 1 at `now`, leaves other clients alone, logs the attempt with its number, and keeps the log within 1000 entries |
| Login.HandleLogin | api/auth/login.js:96-190 | preflight and missing fields change nothing; 429 iff the limiter blocks; every 401 carries the same message; failures and blocked attempts are both recorded; 200 only for the configured pair, and it resets the client's record to one attempt at the login time |
| Login.LoginOutcome | api/auth/login.js:124-190 | for a request with both fields: 429 with the limiter's minutes when blocked; otherwise 401 for a wrong pair; for the configured pair 500 when signing either token fails and otherwise the 200 response with both freshly signed tokens |
| Login.DefaultPairLogsIn | api/auth/login.js:17-19 | with no environment variables set, `'2117'`/`'2117'` gets 200 whenever the limiter allows it and signing works |
| Login.LoginIssuesTokens | api/auth/login.js:164-179 | a 200 carries the access token signed for the user, `expiresIn` 1800, the refresh token only with `rememberMe`, and one cookie per returned token |
| Login.NoUsernameEnumeration | api/auth/login.js:135-156 | an unknown username and a wrong password get the same response and leave the same attempt records |
| Login.FailedAttempt | api/auth/login.js:126-156 | a failed login inside the window gets 401 below 5 prior attempts and 429 from 5, and counts one more attempt |
| Login.RepeatedFailures | api/auth/login.js:22-64 | failed logins from one client inside one window are answered 401 while fewer than 5 are recorded and 429 afterwards |
| Login.RepeatedFailureCount | api/auth/login.js:41-64 | each failed call inside the window, blocked or not, raises the client's count by one and keeps the window start |
| Login.LastFailure | api/auth/login.js:126-156 | one more failed call keeps the earlier answers, is answered 429 from 5 recorded failures and 401 before, and raises the count by one |
| Login.SixthFailureBlocked | api/auth/login.js:126-133 | from a client with no record, five failed logins within 15 minutes get 401 and the sixth gets 429 |
| Login.SuccessRecordsOne | api/auth/login.js:158-162 | after a success the client's record is one attempt starting at the login time, and the last log entry records the success as attempt 1 |
| Login.SuccessThenFailures | api/auth/login.js:158-162 | after a success, four failures in the new window get 401 and later ones get 429 |
| Login.LoginServer.CheckRateLimit | api/auth/login.js:22-38 | the decision and the new attempt map are those of `RateCheck`; the log is untouched |
| Login.LoginServer.RecordLoginAttempt | api/auth/login.js:41-64 | the new state is `Record` of the old one |
| Login.LoginServer.Handler | api/auth/login.js:96-190 | the response and new state are those of `HandleLogin`; the log bound is kept |
| Login.CredentialCheck | api/auth/login.js:136-179 | the credential part of the handler keeps the store's invariant (attempt counts at least one, the log bound) |
| Login.LoginServer.CheckCredentials | api/auth/login.js:136-179 | the response and new state are those of `CredentialCheck`; the invariant is kept |
| Refresh.HandleRefresh | api/auth/refresh.js:34-96 | a missing token gets 400, an unverifiable one 401; a token that decodes gets 200 iff both new tokens are signed, and 500 otherwise; a 200 carries the two tokens newly signed for the presented token's user with the 30-minute and 7-day lifetimes, `expiresIn` 1800 and both cookies |
| Refresh.RefreshPreservesSubject | api/auth/refresh.js:60-72 | the new tokens decode to the same user, as an access token and as a refresh token |
| Refresh.TypeClaimIgnored | api/auth/refresh.js:60-69 | an access token of the same user is answered exactly like a refresh token (the `type` claim is not checked) |
| Refresh.LoginThenRefresh | api/auth/refresh.js:49-86 | the refresh token from a "remember me" login always refreshes successfully (the signer that signed the login's pair signs the same claims again), and the new access token decodes to the logged-in user |
| Verify.HandleVerify | api/auth/verify.js:15-71 | outside preflight, `valid` equals `success`, the status is 200 or 401, 200 iff the bearer token decodes, the two 401 messages distinguish a missing from a rejected token, and a 200 names the user |
| Verify.AgreesWithMiddleware | api/auth/verify.js:32-60 | the endpoint accepts exactly the headers the middleware accepts, with the same user |
| AuthHelpers.ValidateEmail | src/utils/authHelpers.js:18-21 | an accepted address has no white space, exactly one `'@'`, not first, and a `'.'` after it with characters on both sides |
| AuthHelpers.ValidateEmailMatchesPattern | src/utils/authHelpers.js:19 | the test accepts exactly the strings `^[^\s@]+@[^\s@]+\.[^\s@]+$` matches |
| AuthHelpers.ValidatePassword | src/utils/authHelpers.js:28-51 | each of the four messages appears iff its check fails (under 6 characters, no upper case, no lower case, no digit), no other message appears, so at most four; valid iff there are none |
| AuthHelpers.PasswordMessagesInOrder | src/utils/authHelpers.js:28-51 | the messages come in the order of the checks, each at most once |
| AuthHelpers.MinutesSeconds | src/utils/authHelpers.js:81-82 | whole minutes and leftover whole seconds, below 60, that reassemble the span to within a second |
| AuthHelpers.GetSessionRemainingTime | src/utils/authHelpers.js:73-89 | `"Invalid"` for a falsy time, `"Expired"` once past, otherwise the `FormatRemaining` text (`"{s}s"` under a minute, `"{m}m {s}s"` from one) of the whole minutes and leftover seconds |
| AuthHelpers.FormatReadsBack | src/utils/authHelpers.js:84-88 | `parseInt` of the remaining-time text gives back the minutes, or the seconds under a minute |
| AuthHelpers.IsTokenExpiringSoon | src/utils/authHelpers.js:96-104 | true iff the time is truthy and lies strictly within the next five minutes |
| AuthHelpers.ExpiringSoonShowsUnderFiveMinutes | src/utils/authHelpers.js:73-104 | a session expiring soon is not shown as expired and shows under five minutes |
| AuthHelpers.Delay | src/utils/authHelpers.js:166 | the backoff delay is at least 500 ms |
| AuthHelpers.DelayDoubles | src/utils/authHelpers.js:166 | each further attempt doubles the delay |
| AuthHelpers.DelayMonotone | src/utils/authHelpers.js:166 | more recorded attempts never give a shorter delay |
| AuthHelpers.CanAttemptSpec | src/utils/authHelpers.js:157-176 | the first attempt is allowed and starts the count at 1; denied iff the count is at least the maximum and the delay has not passed; a denial changes nothing; an allowed attempt counts one more at `now` |
| AuthHelpers.RemainingTimeSpec | src/utils/authHelpers.js:178-185 | never negative, and positive iff the delay since the last attempt has not passed, then the time still to wait |
| AuthHelpers.RemainingTimeIsTheWait | src/utils/authHelpers.js:157-185 | at or over the limit, an attempt is allowed exactly when the reported remaining time is 0 |
| AuthHelpers.WaitDoubles | src/utils/authHelpers.js:166-175 | at or over the limit, the next attempt after an allowed one must wait twice the previous delay |
| AuthHelpers.RateLimiter.constructor | src/utils/authHelpers.js:152-155 | a new limiter has no attempts and last time 0 |
| AuthHelpers.RateLimiter.CanAttempt | src/utils/authHelpers.js:157-176 | answer and new state are those of `CanAttemptSpec` |
| AuthHelpers.RateLimiter.GetRemainingTime | src/utils/authHelpers.js:178-185 | the result is `RemainingTimeSpec` of the state |
| AuthHelpers.RateLimiter.Reset | src/utils/authHelpers.js:187-190 | restores zero attempts and last time 0 |
| UseAuth.Restored | src/composables/useAuth.js:5-10 | on reload the tokens read back exactly as stored (empty when missing), each expiry is null or the non-empty stored text, and an unset login time reads as 0; `RestoredAfterWrite`, `LoginSurvivesReload` and `ClearedStorageRestoresCleared` relate it to the writes |
| UseAuth.Authenticated | src/composables/useAuth.js:18-28 | never with an empty token; with no expiry, exactly when the token is set |
| UseAuth.AuthenticatedUntilExpiry | src/composables/useAuth.js:22 | a session whose expiry was written as `String(e)` is authenticated up to and including `e` and not after |
| UseAuth.LoggedIn | src/composables/useAuth.js:92-112 | login sets the token, an expiry reading back as now + 30 minutes and the login time; with `rememberMe` also the refresh token and an expiry reading back as now + 7 days; without it those two keep their values |
| UseAuth.RestoredAfterWrite | src/composables/useAuth.js:5-10 | writing one key changes only the ref that key feeds on reload |
| UseAuth.LoginSurvivesReload | src/composables/useAuth.js:92-112 | reloading after a login restores exactly the refs the login set |
| UseAuth.ClearedStorageRestoresCleared | src/composables/useAuth.js:148-159 | reloading after `clearAuth` restores the cleared refs |
| UseAuth.RemovingSessionKeysEmpties | src/composables/useAuth.js:155-159 | removing the five keys leaves no session key in storage |
| UseAuth.Session.Load | src/composables/useAuth.js:5-10 | the refs are read from storage and no timer is pending |
| UseAuth.Session.SetupSessionTimeout | src/composables/useAuth.js:169-180 | the pending timer is cancelled and exactly one timer is pending, due 30 minutes from now; refs and storage are unchanged |
| UseAuth.Session.ClearAuth | src/composables/useAuth.js:148-166 | the tokens become empty, both expiries null and the login time 0; the keys are removed and the timer cancelled; clearing a cleared session changes nothing |
| UseAuth.Session.Logout | src/composables/useAuth.js:143-145 | exactly the effect of `ClearAuth` |
| UseAuth.Session.FireTimeout | src/composables/useAuth.js:174-179 | the session timer firing clears the session, which is then not authenticated |
| UseAuth.Session.Use | src/composables/useAuth.js:198-200 | with a token present the session timer is re-armed, otherwise nothing changes |
| UseAuth.Session.IsAuthenticated | src/composables/useAuth.js:18-28 | the result is `Authenticated` of the session; an expired session with a token is cleared, otherwise nothing changes |
| UseAuth.Session.CheckAuth | src/composables/useAuth.js:128-140 | the same result and effect as `IsAuthenticated` |
| UseAuth.Session.SaveLogin | src/composables/useAuth.js:92-112 | the refs become `LoggedIn` of the old ones and storage gets the matching writes |
| UseAuth.Session.Login | src/composables/useAuth.js:77-125 | succeeds iff the pair is `'2117'`/`'2117'`; a failure changes nothing; a success sets the refs to `LoggedIn`, writes the matching storage, and arms one timer |
| UseAuth.Session.AttachToken | src/composables/useAuth.js:32-38 | a non-empty token is attached as `"Bearer " + token`, otherwise the header is left alone |
| UseAuth.Session.OnResponseError | src/composables/useAuth.js:44-73 | acts only on a 401 of a request not yet retried, and marks it first; refresh success replaces only the access token and retries with the new bearer; refresh failure clears the session and rethrows; with no refresh token the original error is rejected |
| UseAuth.RetriedAtMostOnce | src/composables/useAuth.js:50-52 | a second 401 for the same request is passed on however the refresh would go |

## Left out

- JSON Web Token signing and verification: `jsonwebtoken` is an oracle. The library's expiry boundary, signature and encoding are not modelled.
- The set-but-unused `bcryptjs` import of the login endpoint is not modelled.
- HTTP plumbing: header setting, CORS header strings, `Set-Cookie` attribute strings (only name, value and Max-Age are kept), and the direct-from-body destructuring.
- Non-string request fields (a JSON number as username, say) are not modelled. The fields are optional strings, and truthiness is "present and non-empty".
- `VALID_USERS` is a one-entry object literal. A username such as `"__proto__"` or `"toString"` would find a prototype member in JavaScript. The model looks up only the configured name.
- The login endpoint's 500 path is reached only when signing throws. The ISO timestamp of a log entry is kept as the millisecond value it is made from.
- The verify endpoint's 500 path is not modelled: with the oracle result total, nothing inside its `try` can throw.
- Strings are sequences of characters. JavaScript measures `length` in UTF-16 code units, so the 6-character password check and the 20-character CSRF check differ for characters outside the Basic Multilingual Plane.
- Numbers are unbounded integers. `Number` precision loss above 2^53 (for timestamps, `parseInt` and `Math.pow(2, attempts - 1)` past 1024 attempts) is not modelled, and neither is `Math.ceil` on floating-point quotients.
- `Date.now()`, `setTimeout`/`clearTimeout`, `Math.random` (the mock token suffixes become parameters), `console` logging, axios registration and network calls are modelled as parameters or left out. So are the `window.location` redirect after the session timeout and the lazy interceptor registration (`ensureInterceptors`).
- UseAuth.Session.IsAuthenticated: evaluated fresh on each call. Vue's `computed` caches the value until a ref it reads changes, so a read without such a change may return an older value. The model does not capture that; `checkAuth`'s own check always uses the current time.
- UseAuth.Session.OnResponseError: the refresh reply is taken to carry a string token. A successful reply without `token` would store `undefined` in JavaScript. The retried request's own outcome is not modelled.
- UseAuth.Session.OnResponseError: does not model the re-entry of the refresh call into the same interceptor. The refresh POST (src/composables/useAuth.js:55) goes through the same axios instance. A 401 from the refresh endpoint (an expired or forged refresh token, api/auth/refresh.js:62-66) comes back in with a new request config that has no `_retry` mark. With `refreshToken` still set, another refresh is posted, and the clear-and-rethrow branch (src/composables/useAuth.js:65-67) is not reached for that reply. The model's failed refresh (`None`) stands only for a failure that does reach that branch.
- Local storage holds only the five session keys. Other keys of the origin are not modelled.
- `getCsrfToken` and `generateCsrfToken` are not modelled: they are a DOM query and randomness.
- `formatDate` is not modelled: it is locale formatting.
- `safeJsonParse`, `encodeHTML` and `debounce` are not modelled: they depend on `JSON.parse`, the DOM and timers.
- api/auth/logout.js is not part of this model: it returns a fixed response and sets constant cookies.
- Concurrency is not modelled: calls are sequential, with no races on the shared maps and no race between the client timer and a refresh.
- Default arguments are not modelled: every caller passes all parameters. The defaults are `maxRequests = 10` and `windowMs = 60000` of the middleware's `checkRateLimit` (api/middleware.js:85), `methods = 'POST'` and `requiresAuth = true` of `protectedApiHandler` (api/middleware.js:146), `maxAttempts = 5` of `createRateLimiter` (src/utils/authHelpers.js:152), and `rememberMe = false` of `login` (src/composables/useAuth.js:77).
- AuthHelpers.GetSessionRemainingTime: takes the expiry as a number. JavaScript would also coerce a numeric string through `-`.
