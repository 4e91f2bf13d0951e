/** Client-side helpers: e-mail and password validation, remaining-session formatting,
    the "expiring soon" test, and a rate limiter with exponential backoff. */
module AuthHelpers {
  import opened Wrappers
  import opened JsString
  import opened JsMath

  // ---------------------------------------------------------------------------
  // validateEmail: /^[^\s@]+@[^\s@]+\.[^\s@]+$/

  /** A character of the class `[^\s@]`. */
  predicate EmailChar(c: char) {
    !IsWhitespace(c) && c != '@'
  }

  /** A match of `[^\s@]+`. */
  predicate EmailRun(s: string) {
    s != [] && forall i :: 0 <= i < |s| ==> EmailChar(s[i])
  }

  /** The language of the pattern, stated as the regular expression reads. */
  ghost predicate MatchesEmailPattern(s: string) {
    exists local: string, host: string, top: string ::
      s == local + "@" + host + "." + top && EmailRun(local) && EmailRun(host) && EmailRun(top)
  }

  /** The part after the `'@'`: `[^\s@]+\.[^\s@]+`, a run with a dot strictly inside. */
  predicate DomainMatches(d: string) {
    && (forall i :: 0 <= i < |d| ==> EmailChar(d[i]))
    && exists j :: 0 < j < |d| - 1 && d[j] == '.'
  }

  /** `validateEmail(email)`: the regular expression test, computed by splitting at the `'@'`. */
  function ValidateEmail(email: string): (ok: bool)
    ensures ok ==> forall i :: 0 <= i < |email| ==> !IsWhitespace(email[i])
    ensures ok ==> exists p :: 0 < p < |email| && email[p] == '@'
    ensures ok ==> forall p, q :: 0 <= p < |email| && 0 <= q < |email| && email[p] == '@' && email[q] == '@' ==> p == q
    ensures ok ==> exists p, j :: 0 < p && p + 1 < j < |email| - 1 && email[p] == '@' && email[j] == '.'
  {
    exists p :: 0 < p < |email| && email[p] == '@' && EmailRun(email[..p]) && DomainMatches(email[p + 1..])
  }

  /** The accepted string splits at its `'@'` and at a dot after it into three runs. */
  lemma {:induction false} SplitAtMarkers(email: string, p: nat, j: nat)
    requires 0 < p < |email| && email[p] == '@' && EmailRun(email[..p])
    requires DomainMatches(email[p + 1..]) && 0 < j < |email[p + 1..]| - 1 && email[p + 1..][j] == '.'
    ensures MatchesEmailPattern(email)
  {
    var d := email[p + 1..];
    var local, host, top := email[..p], d[..j], d[j + 1..];
    assert d == host + "." + top;
    assert email == local + "@" + d;
    assert email == local + "@" + host + "." + top;
    assert forall i :: 0 <= i < |host| ==> host[i] == d[i];
    assert forall i :: 0 <= i < |top| ==> top[i] == d[j + 1 + i];
    assert EmailRun(host) && EmailRun(top);
  }

  /** Three runs joined by `'@'` and a dot pass the computed test. */
  lemma {:induction false} JoinPasses(local: string, host: string, top: string)
    requires EmailRun(local) && EmailRun(host) && EmailRun(top)
    ensures ValidateEmail(local + "@" + host + "." + top)
  {
    var email := local + "@" + host + "." + top;
    var p := |local|;
    var d := email[p + 1..];
    assert email[..p] == local;
    assert d == host + "." + top;
    assert d[|host|] == '.';
    forall i | 0 <= i < |d|
      ensures EmailChar(d[i])
    {
      if i < |host| {
        assert d[i] == host[i];
      } else if i > |host| {
        assert d[i] == top[i - |host| - 1];
      }
    }
    assert DomainMatches(d);
    assert 0 < p < |email| && email[p] == '@' && EmailRun(email[..p]) && DomainMatches(email[p + 1..]);
  }

  /** The computed test and the regular expression accept the same strings. */
  lemma ValidateEmailMatchesPattern(email: string)
    ensures ValidateEmail(email) <==> MatchesEmailPattern(email)
  {
    if ValidateEmail(email) {
      var p :| 0 < p < |email| && email[p] == '@' && EmailRun(email[..p]) && DomainMatches(email[p + 1..]);
      var j :| 0 < j < |email[p + 1..]| - 1 && email[p + 1..][j] == '.';
      SplitAtMarkers(email, p, j);
    }
    if MatchesEmailPattern(email) {
      var local: string, host: string, top: string :|
        email == local + "@" + host + "." + top && EmailRun(local) && EmailRun(host) && EmailRun(top);
      JoinPasses(local, host, top);
    }
  }

  // ---------------------------------------------------------------------------
  // validatePassword

  const MSG_TOO_SHORT := "Password minimal 6 karakter"
  const MSG_NO_UPPER := "Password harus mengandung minimal 1 huruf besar"
  const MSG_NO_LOWER := "Password harus mengandung minimal 1 huruf kecil"
  const MSG_NO_DIGIT := "Password harus mengandung minimal 1 angka"

  /** `{isValid, errors}`. */
  datatype PasswordCheck = PasswordCheck(isValid: bool, errors: seq<string>)

  predicate HasCharIn(s: string, lo: char, hi: char) {
    exists i :: 0 <= i < |s| && lo <= s[i] <= hi
  }

  lemma MessagesDistinct()
    ensures MSG_TOO_SHORT != MSG_NO_UPPER && MSG_TOO_SHORT != MSG_NO_LOWER && MSG_TOO_SHORT != MSG_NO_DIGIT
    ensures MSG_NO_UPPER != MSG_NO_LOWER && MSG_NO_UPPER != MSG_NO_DIGIT && MSG_NO_LOWER != MSG_NO_DIGIT
  {
    assert |MSG_TOO_SHORT| == 27 && |MSG_NO_UPPER| == 47 && |MSG_NO_LOWER| == 47 && |MSG_NO_DIGIT| == 41;
    assert MSG_NO_UPPER[42] == 'b' && MSG_NO_LOWER[42] == 'k';
  }

  /** The position of a message in the fixed order of the checks. */
  function Rank(message: string): nat {
    if message == MSG_TOO_SHORT then 0
    else if message == MSG_NO_UPPER then 1
    else if message == MSG_NO_LOWER then 2
    else 3
  }

  /** The messages of `e` are in check order and all come before the check ranked `bound`. */
  predicate RankedBelow(e: seq<string>, bound: nat) {
    && (forall i, j :: 0 <= i < j < |e| ==> Rank(e[i]) < Rank(e[j]))
    && (forall i :: 0 <= i < |e| ==> Rank(e[i]) < bound)
  }

  /** One check of `validatePassword`: push its message when it fails. */
  function PushIf(e: seq<string>, fail: bool, message: string): (r: seq<string>)
    ensures |r| <= |e| + 1
    ensures forall m :: m in r <==> m in e || (fail && m == message)
    ensures RankedBelow(e, Rank(message)) ==> RankedBelow(r, Rank(message) + 1)
  {
    if fail then e + [message] else e
  }

  /** `validatePassword(password)`: one message for each check that fails, in the
      order length, upper case, lower case, digit. */
  function ValidatePassword(password: string): (r: PasswordCheck)
    ensures r.isValid <==> r.errors == []
    ensures |r.errors| <= 4
    ensures MSG_TOO_SHORT in r.errors <==> |password| < 6
    ensures MSG_NO_UPPER in r.errors <==> !HasCharIn(password, 'A', 'Z')
    ensures MSG_NO_LOWER in r.errors <==> !HasCharIn(password, 'a', 'z')
    ensures MSG_NO_DIGIT in r.errors <==> !HasCharIn(password, '0', '9')
    ensures forall m :: m in r.errors ==> m in {MSG_TOO_SHORT, MSG_NO_UPPER, MSG_NO_LOWER, MSG_NO_DIGIT}
  {
    MessagesDistinct();
    var e1 := PushIf([], |password| < 6, MSG_TOO_SHORT);
    var e2 := PushIf(e1, !HasCharIn(password, 'A', 'Z'), MSG_NO_UPPER);
    var e3 := PushIf(e2, !HasCharIn(password, 'a', 'z'), MSG_NO_LOWER);
    var e4 := PushIf(e3, !HasCharIn(password, '0', '9'), MSG_NO_DIGIT);
    PasswordCheck(|e4| == 0, e4)
  }

  /** The messages come in the order of the checks: length, upper case, lower case, digit. */
  lemma PasswordMessagesInOrder(password: string)
    ensures var errors := ValidatePassword(password).errors;
      forall i, j :: 0 <= i < j < |errors| ==> Rank(errors[i]) < Rank(errors[j])
  {
    MessagesDistinct();
    assert Rank(MSG_TOO_SHORT) == 0 && Rank(MSG_NO_UPPER) == 1 && Rank(MSG_NO_LOWER) == 2 && Rank(MSG_NO_DIGIT) == 3;
    var e1 := PushIf([], |password| < 6, MSG_TOO_SHORT);
    var e2 := PushIf(e1, !HasCharIn(password, 'A', 'Z'), MSG_NO_UPPER);
    var e3 := PushIf(e2, !HasCharIn(password, 'a', 'z'), MSG_NO_LOWER);
    assert RankedBelow(e3, 3);
  }

  // ---------------------------------------------------------------------------
  // getSessionRemainingTime and isTokenExpiringSoon

  const FIVE_MINUTES := 5 * 60 * 1000

  /** A timestamp argument is truthy when present and not 0. */
  predicate TruthyTime(t: Option<int>) {
    t.Some? && t.value != 0
  }

  /** Whole minutes and the whole seconds left over in a non-negative span of milliseconds. */
  function MinutesSeconds(diff: nat): (ms: (nat, nat))
    ensures ms.1 < 60
    ensures ms.0 * 60000 + ms.1 * 1000 <= diff < ms.0 * 60000 + ms.1 * 1000 + 1000
  {
    (FloorDiv(diff, 60000), FloorDiv(diff % 60000, 1000))
  }

  /** The remaining-time text: `"{s}s"` under a minute and `"{m}m {s}s"` from one. */
  function FormatRemaining(minutes: nat, seconds: nat): string {
    if minutes == 0 then NatToString(seconds) + "s"
    else NatToString(minutes) + "m " + NatToString(seconds) + "s"
  }

  /** `getSessionRemainingTime(expiresAt)` at time `now`: `"Invalid"` for a falsy
      argument, `"Expired"` once past, otherwise the whole minutes and seconds left. */
  function GetSessionRemainingTime(expiresAt: Option<int>, now: int): (r: string)
    ensures !TruthyTime(expiresAt) ==> r == "Invalid"
    ensures TruthyTime(expiresAt) && expiresAt.value < now ==> r == "Expired"
    ensures TruthyTime(expiresAt) && expiresAt.value >= now ==>
      r == FormatRemaining(MinutesSeconds(expiresAt.value - now).0, MinutesSeconds(expiresAt.value - now).1)
  {
    if !TruthyTime(expiresAt) then "Invalid"
    else
      var diff := expiresAt.value - now;
      if diff < 0 then "Expired"
      else
        var minutes := FloorDiv(diff, 60000);
        var seconds := FloorDiv(diff % 60000, 1000);
        FormatRemaining(minutes, seconds)
  }

  /** `parseInt` of the remaining-time text reads its leading number: the minutes,
      or the seconds under a minute (`GetSessionRemainingTime` returns this text for
      the minutes and seconds left). */
  lemma FormatReadsBack(minutes: nat, seconds: nat)
    ensures ParseInt(FormatRemaining(minutes, seconds)) == Some(if minutes == 0 then seconds else minutes)
  {
    if minutes == 0 {
      ParseIntOfLeadingNumber(seconds, "s");
    } else {
      var rest := "m " + NatToString(seconds) + "s";
      assert FormatRemaining(minutes, seconds) == NatToString(minutes) + rest;
      ParseIntOfLeadingNumber(minutes, rest);
    }
  }

  /** `isTokenExpiringSoon(expiresAt)` at time `now`: within the next five minutes. */
  function IsTokenExpiringSoon(expiresAt: Option<int>, now: int): (soon: bool)
    ensures soon <==> TruthyTime(expiresAt) && now < expiresAt.value < now + FIVE_MINUTES
  {
    if !TruthyTime(expiresAt) then false
    else
      var diff := expiresAt.value - now;
      diff > 0 && diff < FIVE_MINUTES
  }

  /** Expiring soon means the remaining-time text is neither "Expired" nor counts
      five minutes or more. */
  lemma ExpiringSoonShowsUnderFiveMinutes(expiresAt: int, now: int)
    requires IsTokenExpiringSoon(Some(expiresAt), now)
    ensures GetSessionRemainingTime(Some(expiresAt), now) != "Expired"
    ensures MinutesSeconds(expiresAt - now).0 < 5
  {
    var (m, s) := MinutesSeconds(expiresAt - now);
    var r := GetSessionRemainingTime(Some(expiresAt), now);
    assert r[|r| - 1] == 's';
  }

  // ---------------------------------------------------------------------------
  // createRateLimiter: exponential backoff

  /** `Math.pow(2, attempts - 1) * 1000`: 500 ms before any attempt, then doubling
      from one second. */
  function Delay(attempts: nat): (ms: nat)
    ensures ms >= 500
  {
    if attempts == 0 then 500 else Pow2(attempts - 1) * 1000
  }

  /** Each attempt doubles the wait, the first included (500 ms to one second). */
  lemma DelayDoubles(attempts: nat)
    ensures Delay(attempts + 1) == 2 * Delay(attempts)
  {
    if attempts > 0 {
      assert Pow2(attempts) == 2 * Pow2(attempts - 1);
    }
  }

  /** More recorded attempts never shorten the wait. */
  lemma DelayMonotone(fewer: nat, more: nat)
    requires fewer <= more
    ensures Delay(fewer) <= Delay(more)
  {
    if fewer > 0 {
      Pow2Monotone(fewer - 1, more - 1);
    }
  }

  /** The closure state of a limiter. */
  datatype Backoff = Backoff(attempts: nat, lastAttemptTime: int)

  /** `canAttempt()` at time `now`: the answer and the state afterwards. */
  function CanAttemptSpec(b: Backoff, maxAttempts: int, now: int): (res: (bool, Backoff))
    ensures b.attempts == 0 ==> res == (true, Backoff(1, now))
    ensures !res.0 <==> b.attempts >= 1 && b.attempts >= maxAttempts && now - b.lastAttemptTime < Delay(b.attempts)
    ensures res.0 ==> res.1 == Backoff(b.attempts + 1, now)
    ensures !res.0 ==> res.1 == b
  {
    if b.attempts == 0 then (true, Backoff(1, now))
    else if b.attempts >= maxAttempts && now - b.lastAttemptTime < Delay(b.attempts) then (false, b)
    else (true, Backoff(b.attempts + 1, now))
  }

  /** `getRemainingTime()` at time `now`. */
  function RemainingTimeSpec(b: Backoff, now: int): (ms: int)
    ensures ms >= 0
    ensures ms > 0 <==> now - b.lastAttemptTime < Delay(b.attempts)
    ensures ms > 0 ==> ms == Delay(b.attempts) - (now - b.lastAttemptTime)
  {
    var remaining := Delay(b.attempts) - (now - b.lastAttemptTime);
    if remaining > 0 then remaining else 0
  }

  /** Once the limit is reached, an attempt is allowed exactly when the reported
      remaining time has run out. */
  lemma RemainingTimeIsTheWait(b: Backoff, maxAttempts: int, now: int)
    requires b.attempts >= 1 && b.attempts >= maxAttempts
    ensures CanAttemptSpec(b, maxAttempts, now).0 <==> RemainingTimeSpec(b, now) == 0
  {
  }

  /** After an allowed attempt at or over the limit, the next one must wait twice as
      long as the previous wait. */
  lemma {:induction false} WaitDoubles(b: Backoff, maxAttempts: int, now: int, later: int)
    requires b.attempts >= 1 && b.attempts >= maxAttempts && CanAttemptSpec(b, maxAttempts, now).0
    ensures CanAttemptSpec(CanAttemptSpec(b, maxAttempts, now).1, maxAttempts, later).0
      <==> later - now >= 2 * Delay(b.attempts)
  {
    DelayDoubles(b.attempts);
  }

  /** The object `createRateLimiter(maxAttempts)` returns, with its closure variables as fields. */
  class RateLimiter {
    const maxAttempts: int
    var attempts: nat
    var lastAttemptTime: int

    function State(): Backoff
      reads this
    {
      Backoff(attempts, lastAttemptTime)
    }

    constructor (maxAttempts: int)
      ensures this.maxAttempts == maxAttempts && State() == Backoff(0, 0)
    {
      this.maxAttempts := maxAttempts;
      attempts := 0;
      lastAttemptTime := 0;
    }

    method CanAttempt(now: int) returns (ok: bool)
      modifies this
      ensures (ok, State()) == CanAttemptSpec(old(State()), maxAttempts, now)
    {
      if attempts == 0 {
        attempts := 1;
        lastAttemptTime := now;
        return true;
      }
      var exponentialDelay := Delay(attempts);
      var timeSinceLastAttempt := now - lastAttemptTime;
      if attempts >= maxAttempts && timeSinceLastAttempt < exponentialDelay {
        return false;
      }
      attempts := attempts + 1;
      lastAttemptTime := now;
      return true;
    }

    method GetRemainingTime(now: int) returns (ms: int)
      ensures ms == RemainingTimeSpec(State(), now)
    {
      var remaining := Delay(attempts) - (now - lastAttemptTime);
      ms := if remaining > 0 then remaining else 0;
    }

    method Reset()
      modifies this
      ensures State() == Backoff(0, 0)
    {
      attempts := 0;
      lastAttemptTime := 0;
    }
  }
}
