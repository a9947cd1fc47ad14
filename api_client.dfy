/**
 * The HTTP client's session-resiliency rules: the base URL, bearer-token
 * injection on every request, and the side effects the response interceptor
 * triggers for 401, 403, 429 and 503 failures before it rejects with the
 * original error.
 *
 * The interceptor's decisions are the pure function `ErrorEffects`; the
 * client object holds the registered callbacks and the log of effects.
 */
module ApiClient {
  import opened Wrappers

  const DefaultBaseUrl := "/api/v1"
  const LoginPath := "/login"
  const MaintenancePath := "/maintenance"
  const SessionSuffix := "/session"
  const MaintenanceMarker := "maintenance_mode"
  const AuthorizationHeader := "Authorization"

  // ---- strings ----

  predicate OccursAt(s: string, sub: string, i: int) {
    0 <= i && i + |sub| <= |s| && s[i..i + |sub|] == sub
  }

  /** `s.includes(sub)` */
  predicate Contains(s: string, sub: string) {
    exists i :: 0 <= i <= |s| && OccursAt(s, sub, i)
  }

  /** `s.endsWith(suffix)` */
  predicate EndsWith(s: string, suffix: string) {
    |suffix| <= |s| && s[|s| - |suffix|..] == suffix
  }

  /** Upper-casing of one character, restricted to ASCII letters. */
  function UpperAscii(c: char): char {
    if 'a' <= c <= 'z' then (c as int - 32) as char else c
  }

  /** `s.toUpperCase()` on ASCII text. */
  function ToUpper(s: string): (r: string)
    ensures |r| == |s|
    ensures forall i :: 0 <= i < |s| ==> r[i] == UpperAscii(s[i])
  {
    seq(|s|, i requires 0 <= i < |s| => UpperAscii(s[i]))
  }

  /** The request method, compared without regard to letter case. */
  predicate SameLettersIgnoringCase(m: string, upper: string, lower: string)
    requires |upper| == |lower|
  {
    |m| == |upper| && forall i :: 0 <= i < |m| ==> m[i] == upper[i] || m[i] == lower[i]
  }

  /** Upper-casing yields "POST" exactly for the sixteen spellings of "post". */
  lemma UpperIsPost(m: string)
    ensures ToUpper(m) == "POST" <==> SameLettersIgnoringCase(m, "POST", "post")
  {
    if ToUpper(m) == "POST" {
      forall i | 0 <= i < |m| ensures m[i] == "POST"[i] || m[i] == "post"[i] {
        assert UpperAscii(m[i]) == "POST"[i];
      }
    }
    if SameLettersIgnoringCase(m, "POST", "post") {
      assert ToUpper(m) == "POST" by {
        forall i | 0 <= i < 4 ensures ToUpper(m)[i] == "POST"[i] {
          assert m[i] == "POST"[i] || m[i] == "post"[i];
        }
      }
    }
  }

  // ---- base URL ----

  /** The base URL chosen at start-up, and whether the native build logs that it is not absolute. */
  datatype BaseUrlChoice = BaseUrlChoice(url: string, warnsMissingOrRootRelative: bool)

  /** `getBaseUrl`, given whether the app runs natively and the build's `VITE_API_BASE_URL`. */
  function GetBaseUrl(native: bool, envUrl: Option<string>): (r: BaseUrlChoice)
    ensures r.url != ""
    ensures envUrl.Some? && envUrl.value != "" ==> r.url == envUrl.value
    ensures envUrl.None? || envUrl.value == "" ==> r.url == DefaultBaseUrl
    ensures r.warnsMissingOrRootRelative <==> native && (envUrl.None? || envUrl.value == "" || envUrl.value[0] == '/')
  {
    var url := if envUrl.Some? && envUrl.value != "" then envUrl.value else DefaultBaseUrl;
    if native then
      BaseUrlChoice(url, envUrl.None? || envUrl.value == "" || envUrl.value[0] == '/')
    else
      BaseUrlChoice(url, false)
  }

  /** Native and web builds talk to the same base URL; only the warning differs. */
  lemma BaseUrlSameOnBothPlatforms(envUrl: Option<string>)
    ensures GetBaseUrl(true, envUrl).url == GetBaseUrl(false, envUrl).url
    ensures !GetBaseUrl(false, envUrl).warnsMissingOrRootRelative
  {
  }

  // ---- requests and failures ----

  datatype RequestConfig = RequestConfig(url: Option<string>, httpMethod: Option<string>, headers: map<string, string>)

  /** The parts of a failed response the interceptor reads. */
  datatype ErrorResponse = ErrorResponse(status: int, errorType: Option<string>)

  /** An axios error: the request it came from and, unless the network failed, the response. */
  datatype HttpError = HttpError(config: Option<RequestConfig>, response: Option<ErrorResponse>)

  datatype Response = Response(status: int, body: string)

  /** What reaches the response interceptor: a success or a failure. */
  datatype Outcome = Fulfilled(response: Response) | Rejected(error: HttpError)

  /**
   * What the rate-limit manager contributes on a 429: the retry-after hint it
   * parses from the headers, and whether `setRateLimited` asks for a toast.
   */
  datatype LimiterReply = LimiterReply(retryAfter: Option<int>, shouldNotify: bool)

  /** A side effect of the response interceptor, in the order it happens. */
  datatype Effect =
    | ClearAuth
    | Navigate(path: string)
    | MarkRateLimited(retryAfter: Option<int>)
    | RateLimitEvent(retryAfter: Option<int>)

  predicate StatusIs(err: HttpError, status: int) {
    err.response.Some? && err.response.value.status == status
  }

  predicate IsMaintenance(err: HttpError) {
    err.response.Some? && err.response.value.errorType == Some(MaintenanceMarker)
  }

  /** A 401 on `POST .../session` is a failed login, left to the login form. */
  predicate IsLoginAttempt(config: Option<RequestConfig>) {
    && config.Some?
    && config.value.url.Some? && EndsWith(config.value.url.value, SessionSuffix)
    && config.value.httpMethod.Some? && ToUpper(config.value.httpMethod.value) == "POST"
  }

  /** A login attempt is a request to a path ending in "/session" whose method is "post" in any letter case. */
  lemma LoginAttemptIff(config: Option<RequestConfig>)
    ensures IsLoginAttempt(config) <==>
      && config.Some?
      && config.value.url.Some? && EndsWith(config.value.url.value, SessionSuffix)
      && config.value.httpMethod.Some? && SameLettersIgnoringCase(config.value.httpMethod.value, "POST", "post")
  {
    if config.Some? && config.value.httpMethod.Some? {
      UpperIsPost(config.value.httpMethod.value);
    }
  }

  /** The effects the response interceptor triggers for one failure. */
  function ErrorEffects(err: HttpError, pathname: string, clearAuthRegistered: bool, limiter: LimiterReply): (r: seq<Effect>)
    ensures |r| <= 2
    // every other failure, 403 and network errors included, triggers nothing
    ensures !StatusIs(err, 401) && !StatusIs(err, 429) && !StatusIs(err, 503) ==> r == []
  {
    if err.response.None? then []
    else
      var status := err.response.value.status;
      if status == 503 then
        if IsMaintenance(err) && !Contains(pathname, MaintenancePath) then [Navigate(MaintenancePath)] else []
      else if status == 401 then
        if IsLoginAttempt(err.config) then []
        else
          (if clearAuthRegistered then [ClearAuth] else [])
          + (if !Contains(pathname, LoginPath) then [Navigate(LoginPath)] else [])
      else if status == 429 then
        [MarkRateLimited(limiter.retryAfter)] + (if limiter.shouldNotify then [RateLimitEvent(limiter.retryAfter)] else [])
      else []
  }

  /**
   * A 401 clears the session once and redirects to the login page unless it
   * answered a login attempt; the redirect is skipped when already there.
   */
  lemma UnauthorizedHandling(err: HttpError, pathname: string, clearAuthRegistered: bool, limiter: LimiterReply)
    ensures var r := ErrorEffects(err, pathname, clearAuthRegistered, limiter);
      && (ClearAuth in r <==> StatusIs(err, 401) && !IsLoginAttempt(err.config) && clearAuthRegistered)
      && multiset(r)[ClearAuth] <= 1
      && (Navigate(LoginPath) in r <==> StatusIs(err, 401) && !IsLoginAttempt(err.config) && !Contains(pathname, LoginPath))
  {
    var r := ErrorEffects(err, pathname, clearAuthRegistered, limiter);
    if StatusIs(err, 401) && !IsLoginAttempt(err.config) {
      var clear: seq<Effect> := if clearAuthRegistered then [ClearAuth] else [];
      var nav: seq<Effect> := if !Contains(pathname, LoginPath) then [Navigate(LoginPath)] else [];
      assert r == clear + nav;
      assert multiset(r) == multiset(clear) + multiset(nav);
    } else if StatusIs(err, 429) {
      var event: seq<Effect> := if limiter.shouldNotify then [RateLimitEvent(limiter.retryAfter)] else [];
      assert r == [MarkRateLimited(limiter.retryAfter)] + event;
      assert multiset(r) == multiset([MarkRateLimited(limiter.retryAfter)]) + multiset(event);
    }
  }

  /** A 503 redirects to the maintenance page exactly when it carries the marker and the page is not already shown. */
  lemma MaintenanceHandling(err: HttpError, pathname: string, clearAuthRegistered: bool, limiter: LimiterReply)
    ensures var r := ErrorEffects(err, pathname, clearAuthRegistered, limiter);
      && (Navigate(MaintenancePath) in r <==> StatusIs(err, 503) && IsMaintenance(err) && !Contains(pathname, MaintenancePath))
      && (StatusIs(err, 503) ==> r == [] || r == [Navigate(MaintenancePath)])
  {
    var r := ErrorEffects(err, pathname, clearAuthRegistered, limiter);
    if StatusIs(err, 401) && !IsLoginAttempt(err.config) {
      var clear: seq<Effect> := if clearAuthRegistered then [ClearAuth] else [];
      var nav: seq<Effect> := if !Contains(pathname, LoginPath) then [Navigate(LoginPath)] else [];
      assert r == clear + nav;
      assert LoginPath != MaintenancePath;
    }
  }

  /** A 429 always reaches the rate-limit manager, and reaches the UI exactly when the manager asks. */
  lemma RateLimitHandling(err: HttpError, pathname: string, clearAuthRegistered: bool, limiter: LimiterReply)
    ensures var r := ErrorEffects(err, pathname, clearAuthRegistered, limiter);
      && (MarkRateLimited(limiter.retryAfter) in r <==> StatusIs(err, 429))
      && (RateLimitEvent(limiter.retryAfter) in r <==> StatusIs(err, 429) && limiter.shouldNotify)
      && (forall e :: e in r && (e.MarkRateLimited? || e.RateLimitEvent?) ==> e.retryAfter == limiter.retryAfter)
  {
    var r := ErrorEffects(err, pathname, clearAuthRegistered, limiter);
    if StatusIs(err, 401) && !IsLoginAttempt(err.config) {
      var clear: seq<Effect> := if clearAuthRegistered then [ClearAuth] else [];
      var nav: seq<Effect> := if !Contains(pathname, LoginPath) then [Navigate(LoginPath)] else [];
      assert r == clear + nav;
    }
  }

  /** One failure redirects at most once, and only to the login or the maintenance page. */
  lemma AtMostOneRedirect(err: HttpError, pathname: string, clearAuthRegistered: bool, limiter: LimiterReply)
    ensures var r := ErrorEffects(err, pathname, clearAuthRegistered, limiter);
      && (forall e :: e in r && e.Navigate? ==> e.path == LoginPath || e.path == MaintenancePath)
      && (forall i, j :: 0 <= i < j < |r| && r[i].Navigate? ==> !r[j].Navigate?)
  {
    var r := ErrorEffects(err, pathname, clearAuthRegistered, limiter);
    if StatusIs(err, 401) && !IsLoginAttempt(err.config) {
      var clear: seq<Effect> := if clearAuthRegistered then [ClearAuth] else [];
      var nav: seq<Effect> := if !Contains(pathname, LoginPath) then [Navigate(LoginPath)] else [];
      assert r == clear + nav;
    }
  }

  /** A path that already contains the target never triggers another redirect to it. */
  lemma NoRedirectWhenAlreadyThere(err: HttpError, clearAuthRegistered: bool, limiter: LimiterReply)
    ensures Navigate(LoginPath) !in ErrorEffects(err, "/login", clearAuthRegistered, limiter)
    ensures Navigate(MaintenancePath) !in ErrorEffects(err, "/maintenance", clearAuthRegistered, limiter)
  {
    assert OccursAt("/login", LoginPath, 0);
    assert OccursAt("/maintenance", MaintenancePath, 0);
  }

  /** The axios instance's interceptors and the callbacks registered with `setAuthHelpers`. */
  class Client {
    var tokenGetterRegistered: bool
    var clearAuthRegistered: bool
    /** Every side effect the response interceptor has triggered, oldest first. */
    var effects: seq<Effect>

    constructor ()
      ensures !tokenGetterRegistered && !clearAuthRegistered && effects == []
    {
      tokenGetterRegistered := false;
      clearAuthRegistered := false;
      effects := [];
    }

    method SetAuthHelpers()
      modifies this
      ensures tokenGetterRegistered && clearAuthRegistered && effects == old(effects)
    {
      tokenGetterRegistered := true;
      clearAuthRegistered := true;
    }

    /**
     * The request interceptor. `currentToken` is what the registered token
     * getter returns at the time of the request.
     */
    method InterceptRequest(config: RequestConfig, currentToken: Option<string>) returns (out: RequestConfig)
      ensures out.url == config.url && out.httpMethod == config.httpMethod
      ensures tokenGetterRegistered && currentToken.Some? && currentToken.value != "" ==>
        out.headers == config.headers[AuthorizationHeader := "Bearer " + currentToken.value]
      ensures !(tokenGetterRegistered && currentToken.Some? && currentToken.value != "") ==> out == config
    {
      var token: Option<string> := if tokenGetterRegistered then currentToken else None;
      out := config;
      if token.Some? && token.value != "" {
        out := out.(headers := out.headers[AuthorizationHeader := "Bearer " + token.value]);
      }
    }

    /**
     * The response interceptor. Successes pass through; a failure triggers its
     * effects and is rejected again unchanged.
     */
    method InterceptResponse(outcome: Outcome, pathname: string, limiter: LimiterReply) returns (result: Outcome)
      modifies this
      ensures result == outcome
      ensures tokenGetterRegistered == old(tokenGetterRegistered) && clearAuthRegistered == old(clearAuthRegistered)
      ensures outcome.Fulfilled? ==> effects == old(effects)
      ensures outcome.Rejected? ==>
        effects == old(effects) + ErrorEffects(outcome.error, pathname, clearAuthRegistered, limiter)
    {
      result := outcome;
      if outcome.Fulfilled? {
        return;
      }
      var err := outcome.error;
      if err.response.Some? && err.response.value.status == 503 {
        if IsMaintenance(err) && !Contains(pathname, MaintenancePath) {
          effects := effects + [Navigate(MaintenancePath)];
        }
      }
      if err.response.Some? && err.response.value.status == 401 {
        var isLoginAttempt := IsLoginAttempt(err.config);
        if !isLoginAttempt {
          if clearAuthRegistered {
            effects := effects + [ClearAuth];
          }
          if !Contains(pathname, LoginPath) {
            effects := effects + [Navigate(LoginPath)];
          }
        }
      }
      if err.response.Some? && err.response.value.status == 429 {
        effects := effects + [MarkRateLimited(limiter.retryAfter)];
        if limiter.shouldNotify {
          effects := effects + [RateLimitEvent(limiter.retryAfter)];
        }
      }
    }
  }

  /**
   * Three 401s on protected resources, handled one after another on a page that
   * is not the login page, clear the session three times: nothing collapses them.
   */
  method RepeatedUnauthorized(c: Client, err: HttpError, pathname: string, limiter: LimiterReply)
    requires c.clearAuthRegistered && c.effects == []
    requires StatusIs(err, 401) && !IsLoginAttempt(err.config) && !Contains(pathname, LoginPath)
    modifies c
    ensures multiset(c.effects)[ClearAuth] == 3
    ensures multiset(c.effects)[Navigate(LoginPath)] == 3
  {
    var once := ErrorEffects(err, pathname, c.clearAuthRegistered, limiter);
    assert once == [ClearAuth, Navigate(LoginPath)];
    var _ := c.InterceptResponse(Rejected(err), pathname, limiter);
    var _ := c.InterceptResponse(Rejected(err), pathname, limiter);
    var _ := c.InterceptResponse(Rejected(err), pathname, limiter);
    assert c.effects == once + once + once;
  }
}
