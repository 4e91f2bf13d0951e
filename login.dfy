/** The login endpoint: a fixed-window attempt counter per client address, a login
    log capped at 1000 entries, a single configured credential pair and token issue. */
module Login {
  import opened Wrappers
  import opened JsString
  import opened JsMath
  import opened Http
  import opened Tokens

  const MAX_LOGIN_ATTEMPTS := 5
  const ATTEMPT_WINDOW := 15 * 60 * 1000
  const MAX_LOGS := 1000
  const DEFAULT_USERNAME := "2117"
  const DEFAULT_PASSWORD := "2117"

  const MSG_MISSING_FIELDS := "Username dan password harus diisi"
  const MSG_BAD_CREDENTIALS := "Username atau password salah"
  const MSG_LOGIN_OK := "Login berhasil"
  const MSG_SERVER_ERROR := "Terjadi error pada server"

  /** `{count, firstAttempt}` for one client address. */
  datatype Attempt = Attempt(count: int, firstAttempt: int)

  /** One entry of the login log (the ISO timestamp is kept as the clock reading). */
  datatype LogEntry = LogEntry(timestamp: int, ip: Option<string>, username: string, success: bool, attemptNumber: int)

  /** The module-level `loginAttempts` map (keyed by the client address, which may be
      `undefined`) and the `loginLogs` array. */
  datatype Store = Store(attempts: map<Option<string>, Attempt>, logs: seq<LogEntry>)

  /** What the attempt check decides; a block carries the minutes left in the window. */
  datatype RateDecision = Allowed | Blocked(remainingTime: int)

  /** The entry of `VALID_USERS`. */
  datatype Credentials = Credentials(username: string, password: string)

  /** The fields of a login request: method, the body's `username`, `password` and
      `rememberMe` (`None` is a missing field), and what identifies the client. */
  datatype LoginRequest = LoginRequest(
    verb: string,
    username: Option<string>,
    password: Option<string>,
    rememberMe: bool,
    forwardedFor: Option<string>,
    remoteAddress: Option<string>)

  predicate Truthy(s: Option<string>) {
    s.Some? && s.value != ""
  }

  /** Records always hold at least one attempt, and the log stays within its cap. */
  ghost predicate ValidStore(st: Store) {
    && |st.logs| <= MAX_LOGS
    && forall k :: k in st.attempts ==> st.attempts[k].count >= 1
  }

  /** `VALID_USERS`: the configured pair, where an unset or empty variable falls back
      to `'2117'`; so the stored password is never empty. */
  function ConfiguredCredentials(envUsername: Option<string>, envPassword: Option<string>): (c: Credentials)
    ensures c.username != "" && c.password != ""
    ensures Truthy(envUsername) ==> c.username == envUsername.value
    ensures Truthy(envPassword) ==> c.password == envPassword.value
    ensures !Truthy(envUsername) ==> c.username == "2117"
    ensures !Truthy(envPassword) ==> c.password == "2117"
  {
    Credentials(if Truthy(envUsername) then envUsername.value else DEFAULT_USERNAME,
                if Truthy(envPassword) then envPassword.value else DEFAULT_PASSWORD)
  }

  /** The client key of the login endpoint: the text before the first `','` of
      `x-forwarded-for` when that is non-empty, otherwise the remote address. */
  function LoginClientIp(forwardedFor: Option<string>, remoteAddress: Option<string>): (ip: Option<string>)
    ensures Truthy(forwardedFor) && forwardedFor.value[0] != ',' ==>
      ip.Some? && ip.value != "" && ip.value <= forwardedFor.value && ',' !in ip.value
      && (|ip.value| < |forwardedFor.value| ==> forwardedFor.value[|ip.value|] == ',')
    ensures !(Truthy(forwardedFor) && forwardedFor.value[0] != ',') ==> ip == remoteAddress
  {
    var first := if forwardedFor.Some? then FirstField(forwardedFor.value, ',') else "";
    if first != "" then Some(first) else remoteAddress
  }

  /** `checkRateLimit(ip)`: a record whose window has lapsed is deleted and the attempt
      allowed; inside the window the attempt is blocked once five are recorded. */
  function RateCheck(attempts: map<Option<string>, Attempt>, ip: Option<string>, now: int)
    : (res: (RateDecision, map<Option<string>, Attempt>))
    ensures res.1 == attempts || res.1 == attempts - {ip}
    ensures (ip in attempts && now - attempts[ip].firstAttempt > ATTEMPT_WINDOW) <==> res.1 != attempts
    ensures res.1 != attempts ==> res.0 == Allowed
    ensures res.0.Blocked? <==>
      ip in attempts && now - attempts[ip].firstAttempt <= ATTEMPT_WINDOW && attempts[ip].count >= MAX_LOGIN_ATTEMPTS
    ensures res.0.Blocked? ==>
      var elapsed := now - attempts[ip].firstAttempt;
      && res.0.remainingTime == CeilDiv(ATTEMPT_WINDOW - elapsed, 60000)
      && res.0.remainingTime >= 0
      && (res.0.remainingTime > 0 <==> elapsed < ATTEMPT_WINDOW)
  {
    var userAttempts := if ip in attempts then attempts[ip] else Attempt(0, now);
    if now - userAttempts.firstAttempt > ATTEMPT_WINDOW then (Allowed, attempts - {ip})
    else if userAttempts.count >= MAX_LOGIN_ATTEMPTS then
      (Blocked(CeilDiv(ATTEMPT_WINDOW - (now - userAttempts.firstAttempt), 60000)), attempts)
    else (Allowed, attempts)
  }

  /** `loginLogs.push(entry)` followed by one `shift()` when the log is over its cap. */
  function AppendLog(logs: seq<LogEntry>, entry: LogEntry): (r: seq<LogEntry>)
    ensures |logs| <= MAX_LOGS ==> |r| <= MAX_LOGS
    ensures r != [] && r[|r| - 1] == entry
    ensures |logs| < MAX_LOGS ==> r == logs + [entry]
    ensures |logs| == MAX_LOGS ==> r == logs[1..] + [entry]
  {
    var grown := logs + [entry];
    if |grown| > MAX_LOGS then grown[1..] else grown
  }

  /** `recordLoginAttempt(ip, success, username)`: the address's count goes up by one
      (a new record starts its window now) and the log gets one entry carrying the new count. */
  function Record(st: Store, ip: Option<string>, success: bool, username: string, now: int): (st': Store)
    ensures ip in st'.attempts && st'.attempts.Keys == st.attempts.Keys + {ip}
    ensures ip in st.attempts ==> st'.attempts[ip] == st.attempts[ip].(count := st.attempts[ip].count + 1)
    ensures ip !in st.attempts ==> st'.attempts[ip] == Attempt(1, now)
    ensures forall k :: k in st.attempts && k != ip ==> st'.attempts[k] == st.attempts[k]
    ensures st'.logs == AppendLog(st.logs, LogEntry(now, ip, username, success, st'.attempts[ip].count))
    ensures ValidStore(st) ==> ValidStore(st')
  {
    var userAttempts := if ip in st.attempts then st.attempts[ip] else Attempt(0, now);
    var counted := userAttempts.(count := userAttempts.count + 1);
    Store(st.attempts[ip := counted], AppendLog(st.logs, LogEntry(now, ip, username, success, counted.count)))
  }

  /** The 200 response: the access token always, the refresh token and its cookie only
      with `rememberMe`. */
  function LoginSuccess(token: string, refreshToken: string, rememberMe: bool): Response {
    Response(200,
             Some(Body(true, MSG_LOGIN_OK, None, None, Some(token),
                       if rememberMe then Some(refreshToken) else None, Some(TOKEN_EXPIRY), None)),
             [Cookie("authToken", token, TOKEN_EXPIRY)]
             + if rememberMe then [Cookie("refreshToken", refreshToken, REFRESH_TOKEN_EXPIRY)] else [])
  }

  function TooManyAttempts(remainingTime: int): Response {
    Failure(429, "Terlalu banyak percobaan. Coba lagi dalam " + IntToString(remainingTime) + " menit")
  }

  /** The request gets past the preflight and field checks. */
  predicate HasFields(req: LoginRequest) {
    req.verb != OPTIONS && Truthy(req.username) && Truthy(req.password)
  }

  /** The supplied pair matches `VALID_USERS` (whose entry is truthy when the stored
      password is non-empty). */
  predicate Matches(req: LoginRequest, creds: Credentials)
    requires HasFields(req)
  {
    req.username.value == creds.username && creds.password != "" && req.password.value == creds.password
  }

  /** The store after the attempt check of a request that has its fields. */
  function Checked(st: Store, req: LoginRequest, now: int): Store
    requires HasFields(req)
  {
    Store(RateCheck(st.attempts, LoginClientIp(req.forwardedFor, req.remoteAddress), now).1, st.logs)
  }

  /** The login `handler`: the response and the store afterwards. */
  function HandleLogin(st: Store, req: LoginRequest, now: int, creds: Credentials, sign: Signer): (res: (Response, Store))
    ensures req.verb == OPTIONS ==> res == (Preflight(), st)
    ensures req.verb != OPTIONS && !HasFields(req) ==> res == (Failure(400, MSG_MISSING_FIELDS), st)
    ensures HasFields(req) ==> res.0.status in {200, 401, 429, 500}
    ensures ValidStore(st) ==> ValidStore(res.1)
    ensures HasFields(req) && res.0.status in {401, 429} ==>
      res.1 == Record(Checked(st, req, now), LoginClientIp(req.forwardedFor, req.remoteAddress), false,
                      req.username.value, now)
    ensures HasFields(req) && res.0.status == 401 ==> res.0 == Failure(401, MSG_BAD_CREDENTIALS)
    ensures HasFields(req) ==>
      (res.0.status == 429 <==>
         RateCheck(st.attempts, LoginClientIp(req.forwardedFor, req.remoteAddress), now).0.Blocked?)
    ensures req.verb != OPTIONS && res.0.status == 200 ==> HasFields(req) && Matches(req, creds)
    ensures req.verb != OPTIONS && res.0.status == 200 ==>
      && LoginClientIp(req.forwardedFor, req.remoteAddress) in res.1.attempts
      && res.1.attempts[LoginClientIp(req.forwardedFor, req.remoteAddress)] == Attempt(1, now)
  {
    if req.verb == OPTIONS then (Preflight(), st)
    else if !HasFields(req) then (Failure(400, MSG_MISSING_FIELDS), st)
    else
      var username := req.username.value;
      var ip := LoginClientIp(req.forwardedFor, req.remoteAddress);
      var (decision, attempts) := RateCheck(st.attempts, ip, now);
      var checked := Store(attempts, st.logs);
      if decision.Blocked? then
        (TooManyAttempts(decision.remainingTime), Record(checked, ip, false, username, now))
      else CredentialCheck(checked, req, ip, creds, sign, now)
  }

  /** The handler past an allowed attempt check: the credential comparison, and on a
      match the reset of the record, the success entry and the token issue. */
  function CredentialCheck(checked: Store, req: LoginRequest, ip: Option<string>, creds: Credentials, sign: Signer,
                           now: int): (res: (Response, Store))
    requires HasFields(req)
    ensures ValidStore(checked) ==> ValidStore(res.1)
  {
    var username := req.username.value;
    if !(username == creds.username && creds.password != "") then
      (Failure(401, MSG_BAD_CREDENTIALS), Record(checked, ip, false, username, now))
    else if req.password.value != creds.password then
      (Failure(401, MSG_BAD_CREDENTIALS), Record(checked, ip, false, username, now))
    else
      var succeeded := Record(Store(checked.attempts - {ip}, checked.logs), ip, true, username, now);
      var pair := GenerateTokens(username);
      var token := sign(pair.access);
      var refreshToken := sign(pair.refresh);
      if token.None? || refreshToken.None? then
        (Failure(500, MSG_SERVER_ERROR), Record(succeeded, ip, false, username, now))
      else
        (LoginSuccess(token.value, refreshToken.value, req.rememberMe), succeeded)
  }

  /** Which answer a login with both fields gets: 429 with the limiter's minutes when
      blocked; otherwise 401 for a wrong pair, and for the configured pair 200 with
      the freshly signed tokens, or 500 when signing either token fails. */
  lemma LoginOutcome(st: Store, req: LoginRequest, now: int, creds: Credentials, sign: Signer)
    requires HasFields(req)
    ensures var r := HandleLogin(st, req, now, creds, sign).0;
      var decision := RateCheck(st.attempts, LoginClientIp(req.forwardedFor, req.remoteAddress), now).0;
      var access := sign(Claims(req.username.value, Access, TOKEN_EXPIRY));
      var refresh := sign(Claims(req.username.value, Refresh, REFRESH_TOKEN_EXPIRY));
      && (decision.Blocked? ==> r == TooManyAttempts(decision.remainingTime))
      && (decision.Allowed? && !Matches(req, creds) ==> r == Failure(401, MSG_BAD_CREDENTIALS))
      && (decision.Allowed? && Matches(req, creds) && (access.None? || refresh.None?) ==>
            r == Failure(500, MSG_SERVER_ERROR))
      && (decision.Allowed? && Matches(req, creds) && access.Some? && refresh.Some? ==>
            r == LoginSuccess(access.value, refresh.value, req.rememberMe))
  {
  }

  /** With neither environment variable set, `'2117'`/`'2117'` logs in wherever the
      limiter allows the attempt and signing works. */
  lemma DefaultPairLogsIn(st: Store, req: LoginRequest, now: int, sign: Signer)
    requires req.verb != OPTIONS && req.username == Some("2117") && req.password == Some("2117")
    requires RateCheck(st.attempts, LoginClientIp(req.forwardedFor, req.remoteAddress), now).0.Allowed?
    requires sign(Claims("2117", Access, TOKEN_EXPIRY)).Some? && sign(Claims("2117", Refresh, REFRESH_TOKEN_EXPIRY)).Some?
    ensures HandleLogin(st, req, now, ConfiguredCredentials(None, None), sign).0.status == 200
  {
    LoginOutcome(st, req, now, ConfiguredCredentials(None, None), sign);
  }

  /** An unknown username and a wrong password get the same answer and leave the
      same trace, so the response does not reveal which one was wrong. */
  lemma NoUsernameEnumeration(st: Store, unknownUser: LoginRequest, wrongPassword: LoginRequest, now: int,
                              creds: Credentials, sign: Signer)
    requires HasFields(unknownUser) && HasFields(wrongPassword)
    requires unknownUser.username.value != creds.username
    requires wrongPassword.username.value == creds.username && wrongPassword.password.value != creds.password
    requires unknownUser.(username := wrongPassword.username, password := wrongPassword.password) == wrongPassword
    requires RateCheck(st.attempts, LoginClientIp(unknownUser.forwardedFor, unknownUser.remoteAddress), now).0.Allowed?
    ensures HandleLogin(st, unknownUser, now, creds, sign).0 == HandleLogin(st, wrongPassword, now, creds, sign).0
    ensures HandleLogin(st, unknownUser, now, creds, sign).0 == Failure(401, MSG_BAD_CREDENTIALS)
    ensures HandleLogin(st, unknownUser, now, creds, sign).1.attempts
         == HandleLogin(st, wrongPassword, now, creds, sign).1.attempts
  {
  }

  /** A successful login returns the access token signed for the user, the refresh
      token only with `rememberMe`, and a cookie for each token it returns. */
  lemma LoginIssuesTokens(st: Store, req: LoginRequest, now: int, creds: Credentials, sign: Signer)
    requires req.verb != OPTIONS && HandleLogin(st, req, now, creds, sign).0.status == 200
    ensures var r := HandleLogin(st, req, now, creds, sign).0;
      var access := sign(Claims(req.username.value, Access, TOKEN_EXPIRY));
      var refresh := sign(Claims(req.username.value, Refresh, REFRESH_TOKEN_EXPIRY));
      && access.Some? && refresh.Some?
      && r.body.Some? && r.body.value.success && r.body.value.message == MSG_LOGIN_OK
      && r.body.value.token == access
      && r.body.value.refreshToken == (if req.rememberMe then refresh else None)
      && r.body.value.expiresIn == Some(TOKEN_EXPIRY)
      && r.cookies == [Cookie("authToken", access.value, TOKEN_EXPIRY)]
         + if req.rememberMe then [Cookie("refreshToken", refresh.value, REFRESH_TOKEN_EXPIRY)] else []
  {
  }

  /** Replays login requests (each with its clock reading) in order: the responses
      and the store afterwards. */
  function RunLogins(st: Store, calls: seq<(LoginRequest, int)>, creds: Credentials, sign: Signer)
    : (res: (seq<Response>, Store))
    ensures |res.0| == |calls|
  {
    if calls == [] then ([], st)
    else
      var (responses, st') := RunLogins(st, calls[..|calls| - 1], creds, sign);
      var (response, st'') := HandleLogin(st', calls[|calls| - 1].0, calls[|calls| - 1].1, creds, sign);
      (responses + [response], st'')
  }

  /** A failed login from a client whose record holds `count` attempts since `first`
      (or who has no record, with the window starting now) within the window. */
  lemma FailedAttempt(st: Store, req: LoginRequest, now: int, creds: Credentials, sign: Signer, count: int, first: int)
    requires HasFields(req) && !Matches(req, creds)
    requires var ip := LoginClientIp(req.forwardedFor, req.remoteAddress);
      && (ip in st.attempts ==> st.attempts[ip] == Attempt(count, first) && now - first <= ATTEMPT_WINDOW)
      && (ip !in st.attempts ==> count == 0 && first == now)
    ensures count >= MAX_LOGIN_ATTEMPTS ==> HandleLogin(st, req, now, creds, sign).0.status == 429
    ensures count < MAX_LOGIN_ATTEMPTS ==> HandleLogin(st, req, now, creds, sign).0 == Failure(401, MSG_BAD_CREDENTIALS)
    ensures HandleLogin(st, req, now, creds, sign).1.attempts[LoginClientIp(req.forwardedFor, req.remoteAddress)]
         == Attempt(count + 1, first)
  {
  }

  /** Every call is a login with both fields and a wrong pair, from client `ip`, at
      most one window after `first`. */
  predicate FailedCalls(calls: seq<(LoginRequest, int)>, creds: Credentials, ip: Option<string>, first: int) {
    forall i :: 0 <= i < |calls| ==>
      HasFields(calls[i].0) && !Matches(calls[i].0, creds)
      && LoginClientIp(calls[i].0.forwardedFor, calls[i].0.remoteAddress) == ip
      && calls[i].1 - first <= ATTEMPT_WINDOW
  }

  lemma FailedCallsPrefix(calls: seq<(LoginRequest, int)>, creds: Credentials, ip: Option<string>, first: int)
    requires calls != [] && FailedCalls(calls, creds, ip, first)
    ensures FailedCalls(calls[..|calls| - 1], creds, ip, first)
    ensures var last := calls[|calls| - 1];
      HasFields(last.0) && !Matches(last.0, creds)
      && LoginClientIp(last.0.forwardedFor, last.0.remoteAddress) == ip && last.1 - first <= ATTEMPT_WINDOW
  {
  }

  /** The last call of a replay runs on the store the earlier calls left. */
  lemma RunLoginsLast(st: Store, calls: seq<(LoginRequest, int)>, creds: Credentials, sign: Signer)
    requires calls != []
    ensures var before := RunLogins(st, calls[..|calls| - 1], creds, sign);
      var after := HandleLogin(before.1, calls[|calls| - 1].0, calls[|calls| - 1].1, creds, sign);
      RunLogins(st, calls, creds, sign) == (before.0 + [after.0], after.1)
  {
  }

  /** The last of a run of failed logins from `ip`, whose earlier calls left `count`
      attempts since `first` on record: it gets 401 below five attempts and 429 from five,
      and is counted too. */
  lemma LastFailure(st: Store, calls: seq<(LoginRequest, int)>, creds: Credentials, sign: Signer,
                    ip: Option<string>, count: int, first: int)
    requires calls != [] && FailedCalls(calls, creds, ip, first)
    requires var before := RunLogins(st, calls[..|calls| - 1], creds, sign).1;
      && (ip in before.attempts ==> before.attempts[ip] == Attempt(count, first))
      && (ip !in before.attempts ==> count == 0 && first == calls[|calls| - 1].1)
    ensures var run := RunLogins(st, calls, creds, sign);
      && run.0[..|calls| - 1] == RunLogins(st, calls[..|calls| - 1], creds, sign).0
      && (count >= MAX_LOGIN_ATTEMPTS ==> run.0[|calls| - 1].status == 429)
      && (count < MAX_LOGIN_ATTEMPTS ==> run.0[|calls| - 1] == Failure(401, MSG_BAD_CREDENTIALS))
      && ip in run.1.attempts && run.1.attempts[ip] == Attempt(count + 1, first)
  {
    RunLoginsLast(st, calls, creds, sign);
    FailedCallsPrefix(calls, creds, ip, first);
    var before := RunLogins(st, calls[..|calls| - 1], creds, sign);
    FailedAttempt(before.1, calls[|calls| - 1].0, calls[|calls| - 1].1, creds, sign, count, first);
    assert RunLogins(st, calls, creds, sign).0[..|calls| - 1] == before.0;
  }

  /** Failed logins from one client inside one window are all recorded, blocked ones
      included, so the count rises by one per call. */
  lemma {:induction false} RepeatedFailureCount(st: Store, calls: seq<(LoginRequest, int)>, creds: Credentials,
                                                sign: Signer, ip: Option<string>, count: int, first: int)
    requires calls != []
    requires FailedCalls(calls, creds, ip, first)
    requires ip in st.attempts ==> st.attempts[ip] == Attempt(count, first)
    requires ip !in st.attempts ==> count == 0 && first == calls[0].1
    ensures ip in RunLogins(st, calls, creds, sign).1.attempts
    ensures RunLogins(st, calls, creds, sign).1.attempts[ip] == Attempt(count + |calls|, first)
  {
    var pre := calls[..|calls| - 1];
    FailedCallsPrefix(calls, creds, ip, first);
    if pre == [] {
      assert RunLogins(st, pre, creds, sign).1 == st;
      LastFailure(st, calls, creds, sign, ip, count, first);
    } else {
      assert pre[0] == calls[0];
      RepeatedFailureCount(st, pre, creds, sign, ip, count, first);
      LastFailure(st, calls, creds, sign, ip, count + |pre|, first);
    }
  }

  /** The answers to failed logins when `count` attempts were already on record:
      401 while fewer than five are recorded, 429 from then on. */
  predicate FailureResponses(responses: seq<Response>, count: int) {
    forall i :: 0 <= i < |responses| ==>
      if count + i >= MAX_LOGIN_ATTEMPTS then responses[i].status == 429
      else responses[i] == Failure(401, MSG_BAD_CREDENTIALS)
  }

  lemma FailureResponsesSnoc(responses: seq<Response>, last: Response, count: int)
    requires FailureResponses(responses, count)
    requires count + |responses| >= MAX_LOGIN_ATTEMPTS ==> last.status == 429
    requires count + |responses| < MAX_LOGIN_ATTEMPTS ==> last == Failure(401, MSG_BAD_CREDENTIALS)
    ensures FailureResponses(responses + [last], count)
  {
  }

  /** Failed logins from one client inside one window: the first `5 - count` get 401
      and every later one 429. */
  lemma {:induction false} RepeatedFailures(st: Store, calls: seq<(LoginRequest, int)>, creds: Credentials,
                                            sign: Signer, ip: Option<string>, count: int, first: int)
    requires calls != []
    requires FailedCalls(calls, creds, ip, first)
    requires ip in st.attempts ==> st.attempts[ip] == Attempt(count, first)
    requires ip !in st.attempts ==> count == 0 && first == calls[0].1
    ensures FailureResponses(RunLogins(st, calls, creds, sign).0, count)
  {
    var pre := calls[..|calls| - 1];
    FailedCallsPrefix(calls, creds, ip, first);
    var responses := RunLogins(st, calls, creds, sign).0;
    if pre == [] {
      assert RunLogins(st, pre, creds, sign).1 == st;
      LastFailure(st, calls, creds, sign, ip, count, first);
    } else {
      assert pre[0] == calls[0];
      RepeatedFailures(st, pre, creds, sign, ip, count, first);
      RepeatedFailureCount(st, pre, creds, sign, ip, count, first);
      LastFailure(st, calls, creds, sign, ip, count + |pre|, first);
      assert responses == responses[..|calls| - 1] + [responses[|calls| - 1]];
      FailureResponsesSnoc(RunLogins(st, pre, creds, sign).0, responses[|calls| - 1], count);
    }
  }

  /** From a client with no record, five failed logins within fifteen minutes get 401
      and the sixth gets 429. */
  lemma SixthFailureBlocked(st: Store, calls: seq<(LoginRequest, int)>, creds: Credentials, sign: Signer,
                            ip: Option<string>)
    requires |calls| == 6 && ip !in st.attempts
    requires forall i :: 0 <= i < 6 ==>
      HasFields(calls[i].0) && !Matches(calls[i].0, creds)
      && LoginClientIp(calls[i].0.forwardedFor, calls[i].0.remoteAddress) == ip
      && calls[i].1 - calls[0].1 <= ATTEMPT_WINDOW
    ensures forall i :: 0 <= i < 5 ==> RunLogins(st, calls, creds, sign).0[i] == Failure(401, MSG_BAD_CREDENTIALS)
    ensures RunLogins(st, calls, creds, sign).0[5].status == 429
  {
    RepeatedFailures(st, calls, creds, sign, ip, 0, calls[0].1);
  }

  /** A successful login leaves the client's record holding just that success, and
      logs it as attempt 1 of the user. */
  lemma SuccessRecordsOne(st: Store, good: LoginRequest, t0: int, creds: Credentials, sign: Signer)
    requires good.verb != OPTIONS && HandleLogin(st, good, t0, creds, sign).0.status == 200
    ensures var ip := LoginClientIp(good.forwardedFor, good.remoteAddress);
      var after := HandleLogin(st, good, t0, creds, sign).1;
      && ip in after.attempts && after.attempts[ip] == Attempt(1, t0)
      && after.logs != [] && after.logs[|after.logs| - 1] == LogEntry(t0, ip, good.username.value, true, 1)
  {
  }

  /** A successful login resets the client's record to the success itself, so only
      four further failures in the new window get 401 before the next is blocked. */
  lemma SuccessThenFailures(st: Store, good: LoginRequest, t0: int, after: Store, calls: seq<(LoginRequest, int)>,
                            creds: Credentials, sign: Signer)
    requires good.verb != OPTIONS && HandleLogin(st, good, t0, creds, sign).0.status == 200
    requires after == HandleLogin(st, good, t0, creds, sign).1
    requires calls != []
    requires forall i :: 0 <= i < |calls| ==>
      HasFields(calls[i].0) && !Matches(calls[i].0, creds)
      && LoginClientIp(calls[i].0.forwardedFor, calls[i].0.remoteAddress) == LoginClientIp(good.forwardedFor, good.remoteAddress)
      && calls[i].1 - t0 <= ATTEMPT_WINDOW
    ensures forall i :: 0 <= i < |calls| ==>
      if i >= MAX_LOGIN_ATTEMPTS - 1
      then RunLogins(after, calls, creds, sign).0[i].status == 429
      else RunLogins(after, calls, creds, sign).0[i] == Failure(401, MSG_BAD_CREDENTIALS)
  {
    SuccessRecordsOne(st, good, t0, creds, sign);
    RepeatedFailures(after, calls, creds, sign, LoginClientIp(good.forwardedFor, good.remoteAddress), 1, t0);
  }

  /** The module-level login state, changed in place by the handler. */
  class LoginServer {
    var attempts: map<Option<string>, Attempt>
    var logs: seq<LogEntry>

    function State(): Store
      reads this
    {
      Store(attempts, logs)
    }

    ghost predicate Valid()
      reads this
    {
      ValidStore(State())
    }

    constructor ()
      ensures Valid() && attempts == map[] && logs == []
    {
      attempts := map[];
      logs := [];
    }

    /** `checkRateLimit(ip)` at time `now`. */
    method CheckRateLimit(ip: Option<string>, now: int) returns (decision: RateDecision)
      modifies this
      ensures (decision, attempts) == RateCheck(old(attempts), ip, now) && logs == old(logs)
      ensures old(Valid()) ==> Valid()
    {
      var userAttempts := if ip in attempts then attempts[ip] else Attempt(0, now);
      if now - userAttempts.firstAttempt > ATTEMPT_WINDOW {
        attempts := attempts - {ip};
        return Allowed;
      }
      if userAttempts.count >= MAX_LOGIN_ATTEMPTS {
        var remainingTime := CeilDiv(ATTEMPT_WINDOW - (now - userAttempts.firstAttempt), 60000);
        return Blocked(remainingTime);
      }
      return Allowed;
    }

    /** `recordLoginAttempt(ip, success, username)` at time `now`. */
    method RecordLoginAttempt(ip: Option<string>, success: bool, username: string, now: int)
      modifies this
      ensures State() == Record(old(State()), ip, success, username, now)
    {
      var userAttempts := if ip in attempts then attempts[ip] else Attempt(0, now);
      userAttempts := userAttempts.(count := userAttempts.count + 1);
      attempts := attempts[ip := userAttempts];
      var entry := LogEntry(now, ip, username, success, userAttempts.count);
      logs := logs + [entry];
      if |logs| > MAX_LOGS {
        logs := logs[1..];
      }
    }

    /** The login `handler` for one request at time `now`. */
    method Handler(req: LoginRequest, now: int, creds: Credentials, sign: Signer) returns (resp: Response)
      requires Valid()
      modifies this
      ensures Valid()
      ensures (resp, State()) == HandleLogin(old(State()), req, now, creds, sign)
    {
      if req.verb == OPTIONS {
        return Preflight();
      }
      if !Truthy(req.username) || !Truthy(req.password) {
        return Failure(400, MSG_MISSING_FIELDS);
      }
      var username := req.username.value;
      var clientIp := LoginClientIp(req.forwardedFor, req.remoteAddress);
      var rateLimit := CheckRateLimit(clientIp, now);
      if rateLimit.Blocked? {
        RecordLoginAttempt(clientIp, false, username, now);
        return TooManyAttempts(rateLimit.remainingTime);
      }
      resp := CheckCredentials(req, clientIp, creds, sign, now);
    }

    /** The handler's steps past an allowed attempt check. */
    method CheckCredentials(req: LoginRequest, clientIp: Option<string>, creds: Credentials, sign: Signer, now: int)
      returns (resp: Response)
      requires HasFields(req) && Valid()
      modifies this
      ensures Valid()
      ensures (resp, State()) == CredentialCheck(old(State()), req, clientIp, creds, sign, now)
    {
      var username := req.username.value;
      if !(username == creds.username && creds.password != "") {
        RecordLoginAttempt(clientIp, false, username, now);
        return Failure(401, MSG_BAD_CREDENTIALS);
      }
      if req.password.value != creds.password {
        RecordLoginAttempt(clientIp, false, username, now);
        return Failure(401, MSG_BAD_CREDENTIALS);
      }
      attempts := attempts - {clientIp};
      RecordLoginAttempt(clientIp, true, username, now);
      var pair := GenerateTokens(username);
      var token := sign(pair.access);
      var refreshToken := sign(pair.refresh);
      if token.None? || refreshToken.None? {
        RecordLoginAttempt(clientIp, false, username, now);
        return Failure(500, MSG_SERVER_ERROR);
      }
      resp := LoginSuccess(token.value, refreshToken.value, req.rememberMe);
    }
  }
}
