/** The API middleware: JWT header checking, client identification, a sliding-log
    rate limiter over a module-level map, and the wrapper that runs a handler behind
    a fixed sequence of checks. */
module Middleware {
  import opened Wrappers
  import opened JsString
  import opened JsMath
  import opened Http
  import opened Tokens

  const MSG_TOKEN_NOT_FOUND := "Token tidak ditemukan"
  const MSG_TOKEN_EXPIRED := "Token sudah expired"
  const MSG_TOKEN_MALFORMED := "Token format tidak valid"
  const MSG_TOKEN_INVALID := "Token tidak valid"
  const MSG_TOO_MANY_REQUESTS := "Terlalu banyak request. Coba lagi nanti."
  const MSG_SERVER_ERROR := "Terjadi error pada server"

  /** The limit the wrapper applies per client address: 30 requests per minute. */
  const API_MAX_REQUESTS := 30
  const API_WINDOW_MS := 60000

  // ---------------------------------------------------------------------------
  // Token check

  /** `{valid, user, error}` as `verifyJwtToken` returns it. */
  datatype Verification = Verification(valid: bool, user: Option<string>, error: Option<string>)

  /** The outcome of verifying the bearer token of a header, when there is one. */
  function TokenOutcome(authorization: Option<string>, verify: Verifier): Option<JwtOutcome> {
    var token := BearerToken(authorization);
    if token.Some? then Some(verify(token.value)) else None
  }

  /** `verifyJwtToken`: the bearer token is checked by the oracle and each way of
      failing has its own message. */
  function VerifyJwtToken(authorization: Option<string>, verify: Verifier): (v: Verification)
    ensures v.valid <==> TokenOutcome(authorization, verify).Some? && TokenOutcome(authorization, verify).value.Decoded?
    ensures v.valid ==> v.error.None? && v.user == Some(TokenOutcome(authorization, verify).value.username)
    ensures !v.valid ==> v.user.None? && v.error.Some?
    ensures v.error == Some(MSG_TOKEN_NOT_FOUND) <==> BearerToken(authorization).None?
    ensures v.error == Some(MSG_TOKEN_EXPIRED) <==> TokenOutcome(authorization, verify) == Some(Expired)
    ensures v.error == Some(MSG_TOKEN_MALFORMED) <==> TokenOutcome(authorization, verify) == Some(Malformed)
    ensures v.error == Some(MSG_TOKEN_INVALID) <==> TokenOutcome(authorization, verify) == Some(OtherError)
  {
    var token := BearerToken(authorization);
    if token.None? then Verification(false, None, Some(MSG_TOKEN_NOT_FOUND))
    else
      match verify(token.value)
      case Decoded(username, _) => Verification(true, Some(username), None)
      case Expired => Verification(false, None, Some(MSG_TOKEN_EXPIRED))
      case Malformed => Verification(false, None, Some(MSG_TOKEN_MALFORMED))
      case OtherError => Verification(false, None, Some(MSG_TOKEN_INVALID))
  }

  /** A header built from a token the way the client does is checked on exactly that token. */
  lemma VerifyAttachedToken(token: string, verify: Verifier)
    ensures VerifyJwtToken(Some(BEARER + token), verify).valid <==> verify(token).Decoded?
    ensures verify(token).Decoded? ==> VerifyJwtToken(Some(BEARER + token), verify).user == Some(verify(token).username)
  {
    BearerRoundTrip(token);
  }

  // ---------------------------------------------------------------------------
  // Small request helpers

  /** `getClientIp`: the text before the first `';'` of a non-empty `x-forwarded-for`,
      otherwise the socket's remote address, and `'unknown'` when the chosen value is empty. */
  function GetClientIp(forwardedFor: Option<string>, remoteAddress: Option<string>): (ip: string)
    ensures ip != ""
    ensures forwardedFor.Some? && forwardedFor.value != "" && forwardedFor.value[0] != ';' ==>
      ip <= forwardedFor.value && ';' !in ip && (|ip| < |forwardedFor.value| ==> forwardedFor.value[|ip|] == ';')
    ensures forwardedFor.Some? && forwardedFor.value != "" && forwardedFor.value[0] == ';' ==> ip == "unknown"
    ensures (forwardedFor.None? || forwardedFor.value == "") ==>
      ip == if remoteAddress.Some? && remoteAddress.value != "" then remoteAddress.value else "unknown"
  {
    var candidate :=
      if forwardedFor.Some? && forwardedFor.value != "" then Some(FirstField(forwardedFor.value, ';'))
      else remoteAddress;
    if candidate.Some? && candidate.value != "" then candidate.value else "unknown"
  }

  /** `validateCsrfToken`: truthy exactly for a string of more than 20 characters
      (`None` is a missing or non-string value). */
  function ValidateCsrfToken(token: Option<string>): (ok: bool)
    ensures ok <==> token.Some? && |token.value| > 20
  {
    token.Some? && token.value != "" && |token.value| > 20
  }

  /** The `methods` argument: one method or a list of them. */
  datatype AllowedMethods = One(verb: string) | Several(methods: seq<string>)

  /** `validateMethod`: the request's method is the allowed one or in the allowed list. */
  function ValidateMethod(verb: string, allowed: AllowedMethods): (ok: bool)
    ensures ok <==> match allowed
                    case One(m) => verb == m
                    case Several(ms) => exists i :: 0 <= i < |ms| && ms[i] == verb
  {
    var methods := match allowed case One(m) => [m] case Several(ms) => ms;
    verb in methods
  }

  // ---------------------------------------------------------------------------
  // Sliding-log rate limiter

  /** A JavaScript number as the limiter produces it: `Math.min()` of no arguments is `Infinity`. */
  datatype Bound = Finite(value: int) | Infinity

  /** `{allowed, remaining, resetTime, retryAfter}`; `retryAfter` only on a denial. */
  datatype RateLimit = RateLimit(allowed: bool, remaining: int, resetTime: Bound, retryAfter: Option<Bound>)

  /** The timestamps of `log` that lie within the window before `now`, in order
      (`log.filter(time => now - time < windowMs)`). */
  function InWindow(log: seq<int>, now: int, windowMs: int): (r: seq<int>)
    ensures |r| <= |log|
    ensures forall t :: t in r <==> t in log && now - t < windowMs
  {
    if log == [] then []
    else
      var last := log[|log| - 1];
      InWindow(log[..|log| - 1], now, windowMs) + (if now - last < windowMs then [last] else [])
  }

  /** The least element of a non-empty sequence (`Math.min(...s)`). */
  function Min(s: seq<int>): (m: int)
    requires s != []
    ensures m in s && forall t :: t in s ==> m <= t
  {
    if |s| == 1 then s[0]
    else
      var m := Min(s[..|s| - 1]);
      assert s == s[..|s| - 1] + [s[|s| - 1]];
      if s[|s| - 1] < m then s[|s| - 1] else m
  }

  /** One call of `checkRateLimit` on the log stored for its key (`None`: the key
      has no log): the answer and the log stored afterwards. */
  function RateStep(log: Option<seq<int>>, maxRequests: int, windowMs: int, now: int): (res: (RateLimit, seq<int>))
    ensures res.0.allowed <==> log.None? || |InWindow(log.value, now, windowMs)| < maxRequests
    ensures res.0.allowed ==>
      && res.1 == InWindow(log.GetOr([]), now, windowMs) + [now]
      && res.0.remaining == maxRequests - |res.1|
      && res.0.resetTime == Finite(now + windowMs)
      && res.0.retryAfter.None?
    ensures log.None? ==> res.1 == [now] && res.0.remaining == maxRequests - 1
    ensures !res.0.allowed ==> log.Some? && res.1 == log.value && res.0.remaining == 0 && res.0.retryAfter.Some?
    ensures res.0.allowed && log.Some? ==> |res.1| <= maxRequests && res.0.remaining >= 0
    ensures !res.0.allowed && maxRequests >= 1 ==>
      var recent := InWindow(log.value, now, windowMs);
      && recent != []
      && res.0.resetTime == Finite(Min(recent) + windowMs)
      && res.0.retryAfter == Some(Finite(CeilDiv(Min(recent) + windowMs - now, 1000)))
      && res.0.retryAfter.value.value >= 1
  {
    if log.None? then (RateLimit(true, maxRequests - 1, Finite(now + windowMs), None), [now])
    else
      var recent := InWindow(log.value, now, windowMs);
      if |recent| >= maxRequests then
        var reset := if recent == [] then Infinity else Finite(Min(recent) + windowMs);
        var retry := if recent == [] then Infinity else Finite(CeilDiv(Min(recent) + windowMs - now, 1000));
        (RateLimit(false, 0, reset, Some(retry)), log.value)
      else
        (RateLimit(true, maxRequests - (|recent| + 1), Finite(now + windowMs), None), recent + [now])
  }

  /** `checkRateLimit` on the whole map: only the key's entry can change. */
  function CheckRateLimitSpec(entries: map<string, seq<int>>, key: string, maxRequests: int, windowMs: int, now: int)
    : (res: (RateLimit, map<string, seq<int>>))
    ensures res.1.Keys == entries.Keys + {key}
    ensures forall k :: k in entries && k != key ==> res.1[k] == entries[k]
    ensures !res.0.allowed ==> res.1 == entries
  {
    var log := if key in entries then Some(entries[key]) else None;
    var (r, stored) := RateStep(log, maxRequests, windowMs, now);
    (r, entries[key := stored])
  }

  /** The module-level `requestLog` map from client key to request timestamps. */
  class RequestLog {
    var entries: map<string, seq<int>>

    constructor ()
      ensures entries == map[]
    {
      entries := map[];
    }

    /** `checkRateLimit(key, maxRequests, windowMs)` at time `now`. */
    method CheckRateLimit(key: string, maxRequests: int, windowMs: int, now: int) returns (r: RateLimit)
      modifies this
      ensures (r, entries) == CheckRateLimitSpec(old(entries), key, maxRequests, windowMs, now)
    {
      if key !in entries {
        entries := entries[key := [now]];
        return RateLimit(true, maxRequests - 1, Finite(now + windowMs), None);
      }
      var userLog := entries[key];
      var recent := PruneWindow(userLog, now, windowMs);
      if |recent| >= maxRequests {
        var resetTime := Infinity;
        var retryAfter := Infinity;
        if recent != [] {
          var oldest := Oldest(recent);
          resetTime := Finite(oldest + windowMs);
          retryAfter := Finite(CeilDiv(oldest + windowMs - now, 1000));
        }
        return RateLimit(false, 0, resetTime, Some(retryAfter));
      }
      recent := recent + [now];
      entries := entries[key := recent];
      r := RateLimit(true, maxRequests - |recent|, Finite(now + windowMs), None);
    }
  }

  /** The filter of `checkRateLimit` as a loop over the stored log. */
  method PruneWindow(log: seq<int>, now: int, windowMs: int) returns (recent: seq<int>)
    ensures recent == InWindow(log, now, windowMs)
  {
    recent := [];
    var i := 0;
    while i < |log|
      invariant 0 <= i <= |log|
      invariant recent == InWindow(log[..i], now, windowMs)
    {
      assert log[..i + 1][..i] == log[..i];
      if now - log[i] < windowMs {
        recent := recent + [log[i]];
      }
      i := i + 1;
    }
    assert log[..|log|] == log;
  }

  /** `Math.min(...recent)` as a loop. */
  method Oldest(recent: seq<int>) returns (m: int)
    requires recent != []
    ensures m == Min(recent)
  {
    m := recent[0];
    var i := 1;
    while i < |recent|
      invariant 1 <= i <= |recent|
      invariant m == Min(recent[..i])
    {
      assert recent[..i + 1][..i] == recent[..i];
      if recent[i] < m {
        m := recent[i];
      }
      i := i + 1;
    }
    assert recent[..|recent|] == recent;
  }

  // ---------------------------------------------------------------------------
  // The limiter over a sequence of calls on one key

  predicate NonDecreasing(s: seq<int>) {
    forall i, j :: 0 <= i <= j < |s| ==> s[i] <= s[j]
  }

  /** Replays calls at the given times on one key: the log stored afterwards and
      the times of the calls that were allowed. */
  function Replay(times: seq<int>, maxRequests: int, windowMs: int): (Option<seq<int>>, seq<int>) {
    if times == [] then (None, [])
    else
      var (log, allowed) := Replay(times[..|times| - 1], maxRequests, windowMs);
      var now := times[|times| - 1];
      var (r, stored) := RateStep(log, maxRequests, windowMs, now);
      (Some(stored), if r.allowed then allowed + [now] else allowed)
  }

  lemma {:induction false} InWindowAppend(a: seq<int>, b: seq<int>, now: int, windowMs: int)
    ensures InWindow(a + b, now, windowMs) == InWindow(a, now, windowMs) + InWindow(b, now, windowMs)
  {
    if b != [] {
      assert (a + b)[..|a + b| - 1] == a + b[..|b| - 1];
      InWindowAppend(a, b[..|b| - 1], now, windowMs);
    } else {
      assert a + b == a;
    }
  }

  /** Filtering at an earlier time first loses nothing that a later filter keeps. */
  lemma {:induction false} InWindowNested(log: seq<int>, earlier: int, now: int, windowMs: int)
    requires earlier <= now
    ensures InWindow(InWindow(log, earlier, windowMs), now, windowMs) == InWindow(log, now, windowMs)
  {
    if log != [] {
      var init, last := log[..|log| - 1], log[|log| - 1];
      var kept := if earlier - last < windowMs then [last] else [];
      InWindowAppend(InWindow(init, earlier, windowMs), kept, now, windowMs);
      InWindowNested(init, earlier, now, windowMs);
    }
  }

  /** What the limiter stores for a key agrees, at every later time, with the
      full history of allowed calls: pruning and refusing to record denied calls
      never change which allowed calls count. */
  lemma {:induction false} ReplayAgrees(times: seq<int>, maxRequests: int, windowMs: int)
    requires NonDecreasing(times) && times != []
    ensures Replay(times, maxRequests, windowMs).0.Some?
    ensures forall now :: now >= times[|times| - 1] ==>
      InWindow(Replay(times, maxRequests, windowMs).0.value, now, windowMs)
        == InWindow(Replay(times, maxRequests, windowMs).1, now, windowMs)
  {
    var pre, n := times[..|times| - 1], times[|times| - 1];
    var (log, allowed) := Replay(pre, maxRequests, windowMs);
    var (r, stored) := RateStep(log, maxRequests, windowMs, n);
    if pre == [] {
      assert r.allowed && stored == [n] && allowed == [];
    } else {
      ReplayAgrees(pre, maxRequests, windowMs);
      assert pre[|pre| - 1] <= n;
      if r.allowed {
        forall now | now >= n
          ensures InWindow(stored, now, windowMs) == InWindow(allowed + [n], now, windowMs)
        {
          InWindowAppend(InWindow(log.value, n, windowMs), [n], now, windowMs);
          InWindowNested(log.value, n, now, windowMs);
          InWindowAppend(allowed, [n], now, windowMs);
        }
      }
    }
  }

  /** A call on a key already seen is allowed exactly when fewer than `maxRequests`
      allowed calls lie within the window before it. */
  lemma ReplayDecision(times: seq<int>, now: int, maxRequests: int, windowMs: int)
    requires NonDecreasing(times) && times != [] && now >= times[|times| - 1]
    ensures RateStep(Replay(times, maxRequests, windowMs).0, maxRequests, windowMs, now).0.allowed
      <==> |InWindow(Replay(times, maxRequests, windowMs).1, now, windowMs)| < maxRequests
  {
    ReplayAgrees(times, maxRequests, windowMs);
  }

  /** Filtering at a later time keeps no more entries. */
  lemma InWindowShrinks(log: seq<int>, earlier: int, now: int, windowMs: int)
    requires earlier <= now
    ensures |InWindow(log, now, windowMs)| <= |InWindow(log, earlier, windowMs)|
  {
    InWindowNested(log, earlier, now, windowMs);
  }

  /** The limiter's guarantee: after any sequence of calls, at most `maxRequests`
      allowed calls lie within the window before the last one. */
  lemma {:induction false} AtMostMaxInWindow(times: seq<int>, maxRequests: int, windowMs: int)
    requires NonDecreasing(times) && times != [] && maxRequests >= 1
    ensures |InWindow(Replay(times, maxRequests, windowMs).1, times[|times| - 1], windowMs)| <= maxRequests
  {
    var pre, n := times[..|times| - 1], times[|times| - 1];
    var (log, allowed) := Replay(pre, maxRequests, windowMs);
    var (r, stored) := RateStep(log, maxRequests, windowMs, n);
    if pre == [] {
      assert allowed == [];
      assert InWindow([n], n, windowMs) == if 0 < windowMs then [n] else [];
    } else {
      var last := pre[|pre| - 1];
      assert last <= n;
      ReplayAgrees(pre, maxRequests, windowMs);
      if r.allowed {
        InWindowAppend(allowed, [n], n, windowMs);
        assert |InWindow([n], n, windowMs)| <= 1;
      } else {
        AtMostMaxInWindow(pre, maxRequests, windowMs);
        InWindowShrinks(allowed, last, n, windowMs);
      }
    }
  }

  // ---------------------------------------------------------------------------
  // The protected handler wrapper

  /** The parts of a request the wrapper reads. */
  datatype ApiCall = ApiCall(
    verb: string,
    authorization: Option<string>,
    forwardedFor: Option<string>,
    remoteAddress: Option<string>)

  /** A request object: the wrapper attaches `req.user` for the handler. */
  class ApiRequest {
    const call: ApiCall
    var user: Option<string>

    constructor (call: ApiCall)
      ensures this.call == call && user.None?
    {
      this.call := call;
      user := None;
    }
  }

  /** The wrapped handler, given `req.user`: its response, or `None` when it throws. */
  type ApiHandler = Option<string> -> Option<Response>

  /** The request gets past the preflight, method and authentication checks. */
  predicate PassesChecks(call: ApiCall, methods: AllowedMethods, requiresAuth: bool, verify: Verifier) {
    && call.verb != OPTIONS
    && ValidateMethod(call.verb, methods)
    && (requiresAuth ==> VerifyJwtToken(call.authorization, verify).valid)
  }

  /** The 429 response with its `retryAfter` in seconds (`Infinity` serialises as `null`). */
  function TooManyRequests(retryAfter: Bound): Response {
    var retry := match retryAfter case Finite(s) => Some(s) case Infinity => None;
    Response(429, Some(Body(false, MSG_TOO_MANY_REQUESTS, None, None, None, None, None, retry)), [])
  }

  /** What one request to a wrapped handler does: the response, the rate-limit map
      afterwards and the `req.user` afterwards. */
  function GateSpec(entries: map<string, seq<int>>, call: ApiCall, user: Option<string>, methods: AllowedMethods,
                    requiresAuth: bool, verify: Verifier, handler: ApiHandler, now: int)
    : (res: (Response, map<string, seq<int>>, Option<string>))
    ensures call.verb == OPTIONS ==> res == (Preflight(), entries, user)
    ensures call.verb != OPTIONS && !ValidateMethod(call.verb, methods) ==>
      res == (Failure(405, "Method " + call.verb + " tidak diizinkan"), entries, user)
    ensures call.verb != OPTIONS && ValidateMethod(call.verb, methods) && requiresAuth
            && !VerifyJwtToken(call.authorization, verify).valid ==>
      res == (Failure(401, VerifyJwtToken(call.authorization, verify).error.value), entries, user)
    ensures PassesChecks(call, methods, requiresAuth, verify) ==>
      var ip := GetClientIp(call.forwardedFor, call.remoteAddress);
      var limit := CheckRateLimitSpec(entries, ip, API_MAX_REQUESTS, API_WINDOW_MS, now);
      && res.1 == limit.1
      && res.2 == (if requiresAuth then VerifyJwtToken(call.authorization, verify).user else user)
      && (!limit.0.allowed ==> res.0 == TooManyRequests(limit.0.retryAfter.value))
      && (limit.0.allowed ==> res.0 == handler(res.2).GetOr(Failure(500, MSG_SERVER_ERROR)))
  {
    if call.verb == OPTIONS then (Preflight(), entries, user)
    else if !ValidateMethod(call.verb, methods) then
      (Failure(405, "Method " + call.verb + " tidak diizinkan"), entries, user)
    else
      var verification := VerifyJwtToken(call.authorization, verify);
      if requiresAuth && !verification.valid then (Failure(401, verification.error.value), entries, user)
      else
        var user' := if requiresAuth then verification.user else user;
        var ip := GetClientIp(call.forwardedFor, call.remoteAddress);
        var (rateLimit, entries') := CheckRateLimitSpec(entries, ip, API_MAX_REQUESTS, API_WINDOW_MS, now);
        if !rateLimit.allowed then (TooManyRequests(rateLimit.retryAfter.value), entries', user')
        else
          match handler(user')
          case Some(response) => (response, entries', user')
          case None => (Failure(500, MSG_SERVER_ERROR), entries', user')
  }

  /** The wrapper's own limit always reports a finite `retryAfter` of at least a second. */
  lemma GateRetryAfterPositive(entries: map<string, seq<int>>, key: string, now: int)
    requires !CheckRateLimitSpec(entries, key, API_MAX_REQUESTS, API_WINDOW_MS, now).0.allowed
    ensures TooManyRequests(CheckRateLimitSpec(entries, key, API_MAX_REQUESTS, API_WINDOW_MS, now).0.retryAfter.value)
              .body.value.retryAfter.value >= 1
  {
  }

  /** `protectedApiHandler(handler, methods, requiresAuth)` applied to one request. */
  method ProtectedApiHandler(log: RequestLog, req: ApiRequest, methods: AllowedMethods, requiresAuth: bool,
                             verify: Verifier, handler: ApiHandler, now: int) returns (resp: Response)
    modifies log, req
    ensures (resp, log.entries, req.user)
      == GateSpec(old(log.entries), req.call, old(req.user), methods, requiresAuth, verify, handler, now)
  {
    if req.call.verb == OPTIONS {
      return Preflight();
    }
    if !ValidateMethod(req.call.verb, methods) {
      return Failure(405, "Method " + req.call.verb + " tidak diizinkan");
    }
    if requiresAuth {
      var verification := VerifyJwtToken(req.call.authorization, verify);
      if !verification.valid {
        return Failure(401, verification.error.value);
      }
      req.user := verification.user;
    }
    var clientIp := GetClientIp(req.call.forwardedFor, req.call.remoteAddress);
    var rateLimit := log.CheckRateLimit(clientIp, API_MAX_REQUESTS, API_WINDOW_MS, now);
    if !rateLimit.allowed {
      return TooManyRequests(rateLimit.retryAfter.value);
    }
    match handler(req.user)
    case Some(response) => resp := response;
    case None => resp := Failure(500, MSG_SERVER_ERROR);
  }
}
