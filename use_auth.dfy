/** The client session composable: module-level refs mirrored in local storage,
    login and logout, the expiry check, the single session timer, and the
    request and response interceptors' decisions. Time and the timer queue are
    explicit: `now` is a parameter and pending timers are a map from timer id to
    due time. */
module UseAuth {
  import opened Wrappers
  import opened JsString
  import Tokens

  const SESSION_TIMEOUT := 30 * 60 * 1000
  const REMEMBER_ME_DURATION := 7 * 24 * 60 * 60 * 1000

  const VALID_USERNAME := "2117"
  const VALID_PASSWORD := "2117"
  const MSG_BAD_CREDENTIALS := "Username atau password salah"
  const MSG_LOGIN_OK := "Login berhasil"
  const ACCESS_PREFIX := "mock-token-"
  const REFRESH_PREFIX := "mock-refresh-token-"

  /** The local storage keys the session uses: `authToken`, `refreshToken`,
      `sessionExpires`, `rememberMeExpires` and `loginTime`. */
  datatype StorageKey = AuthTokenKey | RefreshTokenKey | SessionExpiresKey | RememberMeExpiresKey | LoginTimeKey

  /** Local storage, restricted to those keys. */
  type Storage = map<StorageKey, string>

  const SESSION_KEYS: set<StorageKey> :=
    {AuthTokenKey, RefreshTokenKey, SessionExpiresKey, RememberMeExpiresKey, LoginTimeKey}

  /** Removing the five session keys empties the modelled storage. */
  lemma RemovingSessionKeysEmpties(storage: Storage)
    ensures storage - SESSION_KEYS == map[]
  {
    forall k: StorageKey
      ensures k in SESSION_KEYS
    {
      match k
      case AuthTokenKey =>
      case RefreshTokenKey =>
      case SessionExpiresKey =>
      case RememberMeExpiresKey =>
      case LoginTimeKey =>
    }
    assert (storage - SESSION_KEYS).Keys == {};
  }

  /** `localStorage.getItem(key) || fallback`. */
  function StoredOr(storage: Storage, key: StorageKey, fallback: string): string {
    if key in storage && storage[key] != "" then storage[key] else fallback
  }

  /** `localStorage.getItem(key) || null`. */
  function StoredOrNull(storage: Storage, key: StorageKey): Option<string> {
    if key in storage && storage[key] != "" then Some(storage[key]) else None
  }

  /** The session refs; `loginTime` is `None` where `parseInt` gives NaN. */
  datatype Refs = Refs(authToken: string, refreshToken: string, sessionExpires: Option<string>,
                       rememberMeExpires: Option<string>, loginTime: Option<int>)

  /** The refs as the module initialises them from storage: the tokens read back as
      stored (a missing key reads as empty), an expiry is null or non-empty, and an
      unset login time reads as 0. */
  function Restored(storage: Storage): (r: Refs)
    ensures r.authToken == (if AuthTokenKey in storage then storage[AuthTokenKey] else "")
    ensures r.refreshToken == (if RefreshTokenKey in storage then storage[RefreshTokenKey] else "")
    ensures r.sessionExpires != Some("") && r.rememberMeExpires != Some("")
    ensures r.sessionExpires.Some? ==> SessionExpiresKey in storage && r.sessionExpires.value == storage[SessionExpiresKey]
    ensures r.rememberMeExpires.Some? ==>
      RememberMeExpiresKey in storage && r.rememberMeExpires.value == storage[RememberMeExpiresKey]
    ensures LoginTimeKey !in storage ==> r.loginTime == Some(0)
  {
    assert IntToString(0) == "0";
    ParseIntOfIntToString(0);
    Refs(StoredOr(storage, AuthTokenKey, ""), StoredOr(storage, RefreshTokenKey, ""),
         StoredOrNull(storage, SessionExpiresKey), StoredOrNull(storage, RememberMeExpiresKey),
         ParseInt(StoredOr(storage, LoginTimeKey, "0")))
  }

  /** The refs `clearAuth` leaves. */
  const CLEARED := Refs("", "", None, None, Some(0))

  /** Empty storage restores a cleared session. */
  lemma ClearedStorageRestoresCleared()
    ensures Restored(map[]) == CLEARED
  {
    assert IntToString(0) == "0";
    ParseIntOfIntToString(0);
  }

  /** `sessionExpires.value && Date.now() > parseInt(sessionExpires.value)`; NaN
      compares false. */
  predicate SessionExpired(sessionExpires: Option<string>, now: int) {
    && sessionExpires.Some? && sessionExpires.value != ""
    && ParseInt(sessionExpires.value).Some? && now > ParseInt(sessionExpires.value).value
  }

  /** The value `isAuthenticated` computes. */
  function Authenticated(r: Refs, now: int): (ok: bool)
    ensures r.authToken == "" ==> !ok
    ensures r.sessionExpires.None? ==> (ok <==> r.authToken != "")
  {
    r.authToken != "" && !SessionExpired(r.sessionExpires, now)
  }

  /** A session whose expiry was written as `String(expiresAt)` is authenticated up
      to and including `expiresAt`, and not a millisecond later. */
  lemma AuthenticatedUntilExpiry(r: Refs, expiresAt: int, now: int)
    requires r.sessionExpires == Some(IntToString(expiresAt))
    ensures Authenticated(r, now) <==> r.authToken != "" && now <= expiresAt
  {
    ParseIntOfIntToString(expiresAt);
  }

  /** The refs a successful `login` leaves; without `rememberMe` the refresh token
      and its expiry keep their previous values. */
  function LoggedIn(r: Refs, rememberMe: bool, now: int, token: string, refresh: string): (s: Refs)
    ensures s.authToken == token && s.loginTime == Some(now)
    ensures s.sessionExpires.Some? && ParseInt(s.sessionExpires.value) == Some(now + SESSION_TIMEOUT)
    ensures rememberMe ==> (s.refreshToken == refresh && s.rememberMeExpires.Some?
      && ParseInt(s.rememberMeExpires.value) == Some(now + REMEMBER_ME_DURATION))
    ensures !rememberMe ==> s.refreshToken == r.refreshToken && s.rememberMeExpires == r.rememberMeExpires
  {
    ParseIntOfIntToString(now + SESSION_TIMEOUT);
    ParseIntOfIntToString(now + REMEMBER_ME_DURATION);
    Refs(token,
         if rememberMe then refresh else r.refreshToken,
         Some(IntToString(now + SESSION_TIMEOUT)),
         if rememberMe then Some(IntToString(now + REMEMBER_ME_DURATION)) else r.rememberMeExpires,
         Some(now))
  }

  /** The storage writes of a successful `login`. */
  function StoreLogin(storage: Storage, rememberMe: bool, now: int, token: string, refresh: string): Storage {
    var written := storage[AuthTokenKey := token][SessionExpiresKey := IntToString(now + SESSION_TIMEOUT)]
                          [LoginTimeKey := IntToString(now)];
    if rememberMe then written[RefreshTokenKey := refresh][RememberMeExpiresKey := IntToString(now + REMEMBER_ME_DURATION)]
    else written
  }

  /** The refs a reload reads after `localStorage.setItem(key, v)`. */
  function Write(r: Refs, key: StorageKey, v: string): Refs {
    match key
    case AuthTokenKey => r.(authToken := v)
    case RefreshTokenKey => r.(refreshToken := v)
    case SessionExpiresKey => r.(sessionExpires := if v != "" then Some(v) else None)
    case RememberMeExpiresKey => r.(rememberMeExpires := if v != "" then Some(v) else None)
    case LoginTimeKey => r.(loginTime := ParseInt(if v != "" then v else "0"))
  }

  /** Storing one key changes only the ref that key feeds. */
  lemma RestoredAfterWrite(storage: Storage, key: StorageKey, v: string)
    ensures Restored(storage[key := v]) == Write(Restored(storage), key, v)
  {
  }

  /** A login survives a reload: reading the storage it wrote gives the refs it set. */
  lemma {:induction false} LoginSurvivesReload(storage: Storage, rememberMe: bool, now: int, token: string, refresh: string)
    ensures Restored(StoreLogin(storage, rememberMe, now, token, refresh))
      == LoggedIn(Restored(storage), rememberMe, now, token, refresh)
  {
    var s1 := storage[AuthTokenKey := token];
    var s2 := s1[SessionExpiresKey := IntToString(now + SESSION_TIMEOUT)];
    var s3 := s2[LoginTimeKey := IntToString(now)];
    RestoredAfterWrite(storage, AuthTokenKey, token);
    RestoredAfterWrite(s1, SessionExpiresKey, IntToString(now + SESSION_TIMEOUT));
    RestoredAfterWrite(s2, LoginTimeKey, IntToString(now));
    ParseIntOfIntToString(now);
    if rememberMe {
      var s4 := s3[RefreshTokenKey := refresh];
      RestoredAfterWrite(s3, RefreshTokenKey, refresh);
      RestoredAfterWrite(s4, RememberMeExpiresKey, IntToString(now + REMEMBER_ME_DURATION));
    }
  }

  /** How the response interceptor settles a failed request. */
  datatype InterceptOutcome = Retry(authorization: string) | RejectOriginal | RethrowRefreshError

  datatype LoginResult = LoginResult(success: bool, message: string)

  /** The parts of an axios request config the interceptors touch. */
  class OutgoingRequest {
    var retry: bool
    var authorization: Option<string>

    constructor ()
      ensures !retry && authorization == None
    {
      retry := false;
      authorization := None;
    }
  }

  /** The module state: the refs, local storage, the `sessionTimeout` ref (0 for
      null; browser timer ids are positive), and the pending timers. */
  class Session {
    var authToken: string
    var refreshToken: string
    var sessionExpires: Option<string>
    var rememberMeExpires: Option<string>
    var loginTime: Option<int>
    var storage: Storage
    var sessionTimeout: nat
    var timers: map<nat, int>
    var nextTimer: nat

    function Current(): Refs
      reads this`authToken, this`refreshToken, this`sessionExpires, this`rememberMeExpires, this`loginTime
    {
      Refs(authToken, refreshToken, sessionExpires, rememberMeExpires, loginTime)
    }

    /** The refs are what a reload would read from storage, and the only timer that
        can be pending is the one `sessionTimeout` holds. */
    ghost predicate Valid()
      reads this
    {
      Mirrored() && TimerOk()
    }

    /** The refs are what a reload would read from storage. */
    ghost predicate Mirrored()
      reads this`authToken, this`refreshToken, this`sessionExpires, this`rememberMeExpires, this`loginTime, this`storage
    {
      Current() == Restored(storage)
    }

    /** At most the timer `sessionTimeout` holds is pending. */
    ghost predicate TimerOk()
      reads this`timers, this`sessionTimeout, this`nextTimer
    {
      timers.Keys <= {sessionTimeout} && 0 !in timers && sessionTimeout < nextTimer
    }

    ghost predicate IsCleared()
      reads this
    {
      Current() == CLEARED && storage == map[] && timers == map[]
    }

    /** Module initialisation (the refs' initial values). */
    constructor Load(stored: Storage)
      ensures Valid() && storage == stored && Current() == Restored(stored)
      ensures timers == map[] && sessionTimeout == 0
    {
      authToken := StoredOr(stored, AuthTokenKey, "");
      refreshToken := StoredOr(stored, RefreshTokenKey, "");
      sessionExpires := StoredOrNull(stored, SessionExpiresKey);
      rememberMeExpires := StoredOrNull(stored, RememberMeExpiresKey);
      loginTime := ParseInt(StoredOr(stored, LoginTimeKey, "0"));
      storage := stored;
      sessionTimeout := 0;
      timers := map[];
      nextTimer := 1;
    }

    /** `setupSessionTimeout`: cancel the pending timer, then schedule `clearAuth`
        thirty minutes from now, so exactly one timer is pending. */
    method SetupSessionTimeout(now: int)
      requires Valid()
      modifies this
      ensures Valid() && Current() == old(Current()) && storage == old(storage)
      ensures sessionTimeout == old(nextTimer) && timers == map[sessionTimeout := now + SESSION_TIMEOUT]
    {
      ghost var refs := Current();
      if sessionTimeout != 0 {
        timers := timers - {sessionTimeout};
      }
      var id := nextTimer;
      nextTimer := nextTimer + 1;
      timers := timers[id := now + SESSION_TIMEOUT];
      sessionTimeout := id;
      assert Current() == refs;
    }

    /** `clearAuth`: reset the refs, remove the session keys, cancel the timer.
        Clearing a cleared session changes nothing. */
    method ClearAuth()
      requires Valid()
      modifies this
      ensures Valid() && IsCleared() && storage == map[]
      ensures sessionTimeout == old(sessionTimeout) && nextTimer == old(nextTimer)
      ensures old(IsCleared()) ==> storage == old(storage) && timers == old(timers) && Current() == old(Current())
    {
      authToken := "";
      refreshToken := "";
      sessionExpires := None;
      rememberMeExpires := None;
      loginTime := Some(0);
      RemovingSessionKeysEmpties(storage);
      storage := storage - SESSION_KEYS;
      if sessionTimeout != 0 {
        timers := timers - {sessionTimeout};
      }
      ClearedStorageRestoresCleared();
    }

    /** `logout` is `clearAuth`. */
    method Logout()
      requires Valid()
      modifies this
      ensures Valid() && IsCleared() && storage == map[]
      ensures sessionTimeout == old(sessionTimeout) && nextTimer == old(nextTimer)
      ensures old(IsCleared()) ==> storage == old(storage) && timers == old(timers) && Current() == old(Current())
    {
      ClearAuth();
    }

    /** The session timer `id` fires (at or after its due time): it runs `clearAuth`. */
    method FireTimeout(id: nat, now: int)
      requires Valid() && id in timers && now >= timers[id]
      modifies this
      ensures Valid() && IsCleared() && storage == map[]
      ensures !Authenticated(Current(), now)
    {
      timers := timers - {id};
      ClearAuth();
    }

    /** Each call of `useAuth()`: restore the session timer when a token is present. */
    method Use(now: int)
      requires Valid()
      modifies this
      ensures Valid() && Current() == old(Current()) && storage == old(storage)
      ensures old(authToken) != "" ==> timers == map[sessionTimeout := now + SESSION_TIMEOUT]
      ensures old(authToken) == "" ==> timers == old(timers) && sessionTimeout == old(sessionTimeout)
    {
      if authToken != "" {
        SetupSessionTimeout(now);
      }
    }

    /** `isAuthenticated`, evaluated at `now`: an expired session is cleared. */
    method IsAuthenticated(now: int) returns (ok: bool)
      requires Valid()
      modifies this
      ensures Valid() && ok == Authenticated(old(Current()), now)
      ensures old(authToken) != "" && SessionExpired(old(sessionExpires), now) ==>
        IsCleared() && storage == map[]
      ensures !(old(authToken) != "" && SessionExpired(old(sessionExpires), now)) ==>
        Current() == old(Current()) && storage == old(storage) && timers == old(timers)
    {
      if authToken == "" {
        return false;
      }
      if SessionExpired(sessionExpires, now) {
        ClearAuth();
        return false;
      }
      return true;
    }

    /** `checkAuth`: the same check, then the value of `isAuthenticated`. */
    method CheckAuth(now: int) returns (ok: bool)
      requires Valid()
      modifies this
      ensures Valid() && ok == Authenticated(old(Current()), now)
      ensures old(authToken) != "" && SessionExpired(old(sessionExpires), now) ==>
        IsCleared() && storage == map[]
      ensures !(old(authToken) != "" && SessionExpired(old(sessionExpires), now)) ==>
        Current() == old(Current()) && storage == old(storage) && timers == old(timers)
    {
      if authToken == "" {
        return false;
      }
      if SessionExpired(sessionExpires, now) {
        ClearAuth();
        return false;
      }
      ok := IsAuthenticated(now);
    }

    /** `login` at time `now`; the two suffixes stand for the random parts of the mock tokens. */
    method Login(username: string, password: string, rememberMe: bool, now: int,
                 accessSuffix: string, refreshSuffix: string) returns (r: LoginResult)
      requires Valid()
      modifies this
      ensures Valid()
      ensures r.success <==> username == VALID_USERNAME && password == VALID_PASSWORD
      ensures !r.success ==> (r.message == MSG_BAD_CREDENTIALS && Current() == old(Current())
        && storage == old(storage) && timers == old(timers) && sessionTimeout == old(sessionTimeout))
      ensures r.success ==> (r.message == MSG_LOGIN_OK
        && Current() == LoggedIn(old(Current()), rememberMe, now, ACCESS_PREFIX + accessSuffix, REFRESH_PREFIX + refreshSuffix)
        && storage == StoreLogin(old(storage), rememberMe, now, ACCESS_PREFIX + accessSuffix, REFRESH_PREFIX + refreshSuffix)
        && timers == map[sessionTimeout := now + SESSION_TIMEOUT])
    {
      if username != VALID_USERNAME || password != VALID_PASSWORD {
        return LoginResult(false, MSG_BAD_CREDENTIALS);
      }
      var token := ACCESS_PREFIX + accessSuffix;
      var mockRefreshToken := REFRESH_PREFIX + refreshSuffix;
      LoginSurvivesReload(storage, rememberMe, now, token, mockRefreshToken);
      SaveLogin(rememberMe, now, token, mockRefreshToken);
      SetupSessionTimeout(now);
      return LoginResult(true, MSG_LOGIN_OK);
    }

    /** The writes of a successful `login`: each ref and its storage key in turn. */
    method SaveLogin(rememberMe: bool, now: int, token: string, mockRefreshToken: string)
      modifies this`authToken, this`refreshToken, this`sessionExpires, this`rememberMeExpires, this`loginTime,
               this`storage
      ensures Current() == LoggedIn(old(Current()), rememberMe, now, token, mockRefreshToken)
      ensures storage == StoreLogin(old(storage), rememberMe, now, token, mockRefreshToken)
    {
      authToken := token;
      storage := storage[AuthTokenKey := token];

      var expiresAt := now + SESSION_TIMEOUT;
      sessionExpires := Some(IntToString(expiresAt));
      storage := storage[SessionExpiresKey := IntToString(expiresAt)];

      loginTime := Some(now);
      storage := storage[LoginTimeKey := IntToString(now)];

      if rememberMe {
        refreshToken := mockRefreshToken;
        storage := storage[RefreshTokenKey := mockRefreshToken];
        var rememberMeExpiry := now + REMEMBER_ME_DURATION;
        rememberMeExpires := Some(IntToString(rememberMeExpiry));
        storage := storage[RememberMeExpiresKey := IntToString(rememberMeExpiry)];
      }
    }

    /** The request interceptor: attach the bearer token when there is one. */
    method AttachToken(req: OutgoingRequest)
      modifies req
      ensures authToken != "" ==> req.authorization == Some(Tokens.BEARER + authToken)
      ensures authToken == "" ==> req.authorization == old(req.authorization)
      ensures req.retry == old(req.retry)
    {
      if authToken != "" {
        req.authorization := Some(Tokens.BEARER + authToken);
      }
    }

    /** The response interceptor's error path. `status` is the response status
        (`None` without a response); `refreshReply` is the outcome of the refresh
        call: the token it returned, or `None` when it failed. */
    method OnResponseError(req: OutgoingRequest, status: Option<int>, refreshReply: Option<string>)
      returns (outcome: InterceptOutcome)
      requires Valid()
      modifies this, req
      ensures Valid() && sessionTimeout == old(sessionTimeout)
      ensures status != Some(401) || old(req.retry) ==>
        outcome == RejectOriginal && req.retry == old(req.retry) && req.authorization == old(req.authorization)
        && Current() == old(Current()) && storage == old(storage) && timers == old(timers)
      ensures status == Some(401) && !old(req.retry) ==> req.retry
      ensures status == Some(401) && !old(req.retry) && old(refreshToken) == "" ==>
        outcome == RejectOriginal && req.authorization == old(req.authorization)
        && Current() == old(Current()) && storage == old(storage) && timers == old(timers)
      ensures status == Some(401) && !old(req.retry) && old(refreshToken) != "" && refreshReply.Some? ==>
        outcome == Retry(Tokens.BEARER + refreshReply.value)
        && req.authorization == Some(Tokens.BEARER + refreshReply.value)
        && Current() == old(Current()).(authToken := refreshReply.value)
        && storage == old(storage)[AuthTokenKey := refreshReply.value] && timers == old(timers)
      ensures status == Some(401) && !old(req.retry) && old(refreshToken) != "" && refreshReply.None? ==>
        outcome == RethrowRefreshError && IsCleared() && storage == map[]
    {
      if status == Some(401) && !req.retry {
        req.retry := true;
        if refreshToken != "" {
          match refreshReply {
            case Some(token) =>
              RestoredAfterWrite(storage, AuthTokenKey, token);
              authToken := token;
              storage := storage[AuthTokenKey := token];
              req.authorization := Some(Tokens.BEARER + token);
              return Retry(Tokens.BEARER + token);
            case None =>
              ClearAuth();
              return RethrowRefreshError;
          }
        }
      }
      return RejectOriginal;
    }
  }

  /** Each request is refreshed and retried at most once: a second 401 for the same
      request is passed on however the refresh would go. */
  method RetriedAtMostOnce(s: Session, req: OutgoingRequest, first: Option<string>, second: Option<string>)
    returns (again: InterceptOutcome)
    requires s.Valid() && !req.retry
    modifies s, req
    ensures again == RejectOriginal
  {
    var outcome := s.OnResponseError(req, Some(401), first);
    again := s.OnResponseError(req, Some(401), second);
  }
}
