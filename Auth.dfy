/** Token store, token expiry and the authenticated-request policy of the
    client (src/utils/auth.js).

    `localStorage` is the map `storage`; the network, the authorization
    server and the page navigation are outside the model: every `fetch`
    outcome is an input, and every request sent, navigation and alert is
    recorded as an `Effect`.  The pure functions `Refresh`, `Exchange` and
    `ApiRequest` are the transitions of that state machine; the methods of
    `Browser` perform them step by step and are proved to agree with them. */
module Auth {
  import opened Wrappers

  // ---------------------------------------------------------------------
  // Constants and strings
  // ---------------------------------------------------------------------

  const TokenKey: string := "token"
  const RefreshKey: string := "refresh_token"
  /** The marker in a 401 body that makes a refresh worth trying. */
  const ExpiryMarker: string := "Token expired"
  const ApiPrefix: string := "/api/"
  const CallbackPath: string := "/complete/epita/"
  const LoginScope: string := "epita profile picture"
  /** An error with this message is not reported by the request executor. */
  const AuthRequiredMessage: string := "Authentication required"
  const ApiFailurePrefix: string := "API request failed: "
  const ExchangeFailureMessage: string := "Failed to authenticate with Forge ID"
  const AuthorizationHeader: string := "Authorization"

  predicate StartsWith(s: string, prefix: string) {
    |prefix| <= |s| && s[..|prefix|] == prefix
  }

  /** `s.includes(sub)`: `sub` occurs at some position of `s`. */
  predicate Contains(s: string, sub: string) {
    StartsWith(s, sub) || (s != [] && Contains(s[1..], sub))
  }

  /** JavaScript truthiness of a string that may be `null`/`undefined`:
      present and not empty. */
  predicate Truthy(v: Option<string>) {
    v.Some? && v.value != ""
  }

  function Bearer(token: string): string {
    "Bearer " + token
  }

  /** What `localStorage.setItem` stores for a value that may be
      `undefined`: the value converted with `String`. */
  function StoredString(v: Option<string>): string {
    match v
    case Some(s) => s
    case None => "undefined"
  }

  // ---------------------------------------------------------------------
  // Token store
  // ---------------------------------------------------------------------

  type Storage = map<string, string>

  /** `localStorage.getItem(key)`, `null` being `None`. */
  function Lookup(storage: Storage, key: string): Option<string> {
    if key in storage then Some(storage[key]) else None
  }

  /** The store after `saveTokens(token, refresh)`. */
  function Saved(storage: Storage, token: string, refresh: string): Storage {
    storage[TokenKey := token][RefreshKey := refresh]
  }

  /** The store after `clearTokens()`. */
  function Cleared(storage: Storage): Storage {
    storage - {TokenKey, RefreshKey}
  }

  /** `isAuthenticated()`: `!!getToken()`, so a token must be stored and
      must not be the empty string. */
  predicate IsAuthenticated(storage: Storage): (r: bool)
    ensures r <==> TokenKey in storage && storage[TokenKey] != ""
  {
    Truthy(Lookup(storage, TokenKey))
  }

  /** The two keys are written and removed together. */
  predicate Paired(storage: Storage) {
    TokenKey in storage <==> RefreshKey in storage
  }

  /** Saving sets both keys and leaves every other key alone; clearing
      removes both and leaves every other key alone. */
  lemma SaveClearKeys(storage: Storage, token: string, refresh: string)
    ensures Lookup(Saved(storage, token, refresh), TokenKey) == Some(token)
    ensures Lookup(Saved(storage, token, refresh), RefreshKey) == Some(refresh)
    ensures Lookup(Cleared(storage), TokenKey).None? && Lookup(Cleared(storage), RefreshKey).None?
    ensures forall k :: k != TokenKey && k != RefreshKey ==>
      Lookup(Saved(storage, token, refresh), k) == Lookup(storage, k) &&
      Lookup(Cleared(storage), k) == Lookup(storage, k)
  {
  }

  /** Saving authenticates exactly when the access token is not empty;
      clearing never leaves the user authenticated; both keep the keys
      paired, and clearing is idempotent and undoes a save. */
  lemma SaveClearEffect(storage: Storage, token: string, refresh: string)
    ensures Paired(Saved(storage, token, refresh)) && Paired(Cleared(storage))
    ensures IsAuthenticated(Saved(storage, token, refresh)) <==> token != ""
    ensures !IsAuthenticated(Cleared(storage))
    ensures Cleared(Cleared(storage)) == Cleared(storage)
    ensures Cleared(Saved(storage, token, refresh)) == Cleared(storage)
  {
  }

  // ---------------------------------------------------------------------
  // Token expiry
  // ---------------------------------------------------------------------

  /** The payload `parseJWT` returns, reduced to its `exp` claim (seconds
      since the epoch); `None` when the claim is absent. */
  datatype Claims = Claims(exp: Option<int>)

  /** `isTokenExpired`, given the result of `parseJWT` (`None` when it fails)
      and the clock reading `now` in milliseconds. */
  function IsTokenExpired(claims: Option<Claims>, now: int): (expired: bool)
    ensures claims.None? ==> expired
    ensures claims.Some? && (claims.value.exp.None? || claims.value.exp == Some(0)) ==> expired
  {
    match claims
    case None => true
    case Some(c) =>
      match c.exp
      case None => true
      case Some(exp) => exp == 0 || exp * 1000 < now
  }

  /** A token is live exactly when its claims parse, carry a non-zero `exp`,
      and `exp * 1000` has not been passed: the boundary instant itself
      counts as live. */
  lemma ExpiryExact(claims: Option<Claims>, now: int)
    ensures !IsTokenExpired(claims, now) <==>
      claims.Some? && claims.value.exp.Some? && claims.value.exp.value != 0 &&
      now <= claims.value.exp.value * 1000
  {
  }

  /** Once expired, a token stays expired as the clock moves forward. */
  lemma ExpiryMonotone(claims: Option<Claims>, now: int, later: int)
    requires now <= later && IsTokenExpired(claims, now)
    ensures IsTokenExpired(claims, later)
  {
  }

  // ---------------------------------------------------------------------
  // Requests
  // ---------------------------------------------------------------------

  /** Deployment constants: `VITE_URL`, `VITE_AUTH_URL`, `VITE_CLIENT_ID`
      and `window.location.origin`. */
  datatype Env = Env(apiUrl: string, authUrl: string, clientId: string, origin: string)

  /** A request handed to `fetch`: URL, method, headers and form fields. */
  datatype Request = Request(url: string, httpMethod: string, headers: map<string, string>, form: seq<(string, string)>)

  /** What the client does that the outside world can see. */
  datatype Effect =
    | Fetch(request: Request)
    | Navigate(url: string, query: seq<(string, string)>)
    | Alert(message: string)

  datatype Response = Response(status: int, text: string)

  predicate IsOk(status: int) {
    200 <= status <= 299
  }

  /** The outcome of one `fetch` on the API: a response, or a thrown error. */
  datatype Reply = Threw(message: string) | Got(response: Response)

  /** The JSON body of a token response. A missing field is `None`. */
  datatype TokenBody = TokenBody(idToken: Option<string>, refreshToken: Option<string>)

  /** The outcome of one `fetch` on the token endpoint; `body` is `None`
      when `response.json()` throws. */
  datatype TokenReply = TokenThrew(message: string) | TokenGot(status: int, body: Option<TokenBody>)

  /** The second argument of `authedAPIRequest`: the method and the
      optional caller headers. */
  datatype RequestOptions = RequestOptions(httpMethod: string, headers: Option<map<string, string>>)

  /** What `authedAPIRequest` resolves to: a response, `undefined`, or a
      rejection carrying the error of the unawaited retry. */
  datatype ApiResult = Returned(response: Response) | NoResult | Rejects(message: string)

  const FormHeaders: map<string, string> := map["Content-Type" := "application/x-www-form-urlencoded"]

  function TokenUrl(env: Env): string {
    env.authUrl + "/token"
  }

  function RedirectUri(env: Env): string {
    env.origin + CallbackPath
  }

  /** The navigation `redirectToLogin` performs. */
  function Login(env: Env): Effect {
    Navigate(env.authUrl + "/authorize",
      [("client_id", env.clientId), ("response_type", "code"),
       ("redirect_uri", RedirectUri(env)), ("scope", LoginScope)])
  }

  function RefreshRequest(env: Env, refresh: string): Request {
    Request(TokenUrl(env), "POST", FormHeaders,
      [("grant_type", "refresh_token"), ("refresh_token", refresh), ("client_id", env.clientId)])
  }

  function CodeRequest(env: Env, code: string): Request {
    Request(TokenUrl(env), "POST", FormHeaders,
      [("grant_type", "authorization_code"), ("code", code),
       ("redirect_uri", RedirectUri(env)), ("client_id", env.clientId)])
  }

  /** The endpoint rewrite of `authedAPIRequest`: an endpoint already under
      `/api/` is kept; otherwise one leading `/` is dropped and `/api/`
      put in front. */
  function NormalizeEndpoint(endpoint: string): (path: string)
    ensures StartsWith(path, ApiPrefix)
    ensures StartsWith(endpoint, ApiPrefix) ==> path == endpoint
    ensures !StartsWith(endpoint, ApiPrefix) ==>
      endpoint == (if StartsWith(endpoint, "/") then "/" else "") + path[|ApiPrefix|..]
  {
    if StartsWith(endpoint, ApiPrefix) then endpoint
    else ApiPrefix + (if StartsWith(endpoint, "/") then endpoint[1..] else endpoint)
  }

  /** Normalising twice is normalising once. */
  lemma NormalizeIdempotent(endpoint: string)
    ensures NormalizeEndpoint(NormalizeEndpoint(endpoint)) == NormalizeEndpoint(endpoint)
  {
  }

  /** The headers of the first attempt: the caller's headers, with
      `Authorization: Bearer <token>` added, or put in place of the caller's
      own, when a token is stored and not empty. */
  function RequestHeaders(caller: map<string, string>, token: Option<string>): map<string, string> {
    if Truthy(token) then caller[AuthorizationHeader := Bearer(token.value)] else caller
  }

  /** The headers of the retry: the caller's headers with the new token,
      whatever the caller put under `Authorization`. */
  function RetryHeaders(caller: map<string, string>, token: string): map<string, string> {
    caller[AuthorizationHeader := Bearer(token)]
  }

  /** Both header sets keep every caller header other than `Authorization`;
      the first attempt carries `Bearer <token>` only for a non-empty stored
      token and is the caller's set unchanged otherwise, and the retry always
      carries the new token. */
  lemma HeaderRules(caller: map<string, string>, token: Option<string>, newToken: string)
    ensures Truthy(token) ==>
      AuthorizationHeader in RequestHeaders(caller, token) &&
      RequestHeaders(caller, token)[AuthorizationHeader] == Bearer(token.value)
    ensures !Truthy(token) ==> RequestHeaders(caller, token) == caller
    ensures AuthorizationHeader in RetryHeaders(caller, newToken) &&
      RetryHeaders(caller, newToken)[AuthorizationHeader] == Bearer(newToken)
    ensures forall k :: k != AuthorizationHeader ==>
      (k in RequestHeaders(caller, token) <==> k in caller) &&
      (k in RetryHeaders(caller, newToken) <==> k in caller) &&
      (k in caller ==> RequestHeaders(caller, token)[k] == caller[k] && RetryHeaders(caller, newToken)[k] == caller[k])
  {
  }

  // ---------------------------------------------------------------------
  // The transitions
  // ---------------------------------------------------------------------

  /** The new store, the effects and the value returned by `refreshToken`. */
  datatype RefreshStep = RefreshStep(storage: Storage, effects: seq<Effect>, token: Option<string>)

  /** `refreshToken`: no refresh token means no request and `null`; an
      exception clears the store; a non-ok status returns `undefined` and
      leaves the store as it was; success saves the new pair and returns the
      new `id_token`. */
  function Refresh(env: Env, storage: Storage, reply: TokenReply): RefreshStep {
    var refresh := Lookup(storage, RefreshKey);
    if !Truthy(refresh) then RefreshStep(storage, [], None)
    else
      var sent := [Fetch(RefreshRequest(env, refresh.value))];
      match reply
      case TokenThrew(_) => RefreshStep(Cleared(storage), sent, None)
      case TokenGot(status, body) =>
        if !IsOk(status) then RefreshStep(storage, sent, None)
        else match body
          case None => RefreshStep(Cleared(storage), sent, None)
          case Some(data) =>
            RefreshStep(Saved(storage, StoredString(data.idToken), StoredString(data.refreshToken)), sent, data.idToken)
  }

  /** The effects of a refresh attempt: one token request exactly when a
      refresh token is stored. */
  lemma RefreshEffects(env: Env, storage: Storage, reply: TokenReply)
    ensures var refresh := Lookup(storage, RefreshKey);
      Refresh(env, storage, reply).effects ==
        if Truthy(refresh) then [Fetch(RefreshRequest(env, refresh.value))] else []
  {
  }

  /** The outcomes of a refresh, as `refreshToken` gives them: an exception
      from the request or from reading its body clears the store. */
  lemma RefreshOutcomes(env: Env, storage: Storage, reply: TokenReply)
    ensures var step := Refresh(env, storage, reply);
      && (!Truthy(Lookup(storage, RefreshKey)) ==> step.storage == storage && step.token.None?)
      && (Truthy(Lookup(storage, RefreshKey)) && reply.TokenThrew? ==> step.storage == Cleared(storage) && step.token.None?)
      && (Truthy(Lookup(storage, RefreshKey)) && reply.TokenGot? && !IsOk(reply.status) ==>
            step.storage == storage && step.token.None?)
      && (Truthy(Lookup(storage, RefreshKey)) && reply.TokenGot? && IsOk(reply.status) && reply.body.None? ==>
            step.storage == Cleared(storage) && step.token.None?)
      && (Truthy(Lookup(storage, RefreshKey)) && reply.TokenGot? && IsOk(reply.status) && reply.body.Some? ==>
            step.token == reply.body.value.idToken &&
            step.storage == Saved(storage, StoredString(reply.body.value.idToken), StoredString(reply.body.value.refreshToken)))
  {
  }

  /** A refresh that yields a usable token has stored that very token, so
      the next `getToken()` sees it. */
  lemma RefreshStoresReturnedToken(env: Env, storage: Storage, reply: TokenReply)
    requires Truthy(Refresh(env, storage, reply).token)
    ensures Lookup(Refresh(env, storage, reply).storage, TokenKey) == Refresh(env, storage, reply).token
    ensures IsAuthenticated(Refresh(env, storage, reply).storage)
  {
  }

  /** The store, the effects and the value of `exchangeCodeForTokens`. */
  datatype ExchangeStep = ExchangeStep(storage: Storage, effects: seq<Effect>, data: Option<TokenBody>)

  /** `exchangeCodeForTokens`: a non-ok status clears the store and
      redirects to login; a thrown error alerts; success saves the pair. */
  function Exchange(env: Env, storage: Storage, code: string, reply: TokenReply): ExchangeStep {
    var sent := [Fetch(CodeRequest(env, code))];
    match reply
    case TokenThrew(_) => ExchangeStep(storage, sent + [Alert(ExchangeFailureMessage)], None)
    case TokenGot(status, body) =>
      if !IsOk(status) then ExchangeStep(Cleared(storage), sent + [Login(env)], None)
      else match body
        case None => ExchangeStep(storage, sent + [Alert(ExchangeFailureMessage)], None)
        case Some(data) =>
          ExchangeStep(Saved(storage, StoredString(data.idToken), StoredString(data.refreshToken)), sent, Some(data))
  }

  /** Exchanging a code always sends one token request first.  Data
      returned means the pair from that data is stored and nothing else is
      done; a thrown request or an unreadable body leaves the store as it was
      and alerts; a non-ok status clears the store and redirects to login. */
  lemma ExchangeOutcomes(env: Env, storage: Storage, code: string, reply: TokenReply)
    ensures var step := Exchange(env, storage, code, reply);
      var sent := Fetch(CodeRequest(env, code));
      && |step.effects| >= 1 && step.effects[0] == sent
      && (step.data.Some? ==>
            && step.effects == [sent]
            && step.storage == Saved(storage, StoredString(step.data.value.idToken), StoredString(step.data.value.refreshToken)))
      && (reply.TokenGot? && IsOk(reply.status) && reply.body.Some? ==> step.data == reply.body)
      && (reply.TokenThrew? || (reply.TokenGot? && IsOk(reply.status) && reply.body.None?) ==>
            step == ExchangeStep(storage, [sent, Alert(ExchangeFailureMessage)], None))
      && (reply.TokenGot? && !IsOk(reply.status) ==>
            step == ExchangeStep(Cleared(storage), [sent, Login(env)], None))
  {
  }

  /** The store, the effects and the result of `authedAPIRequest`. */
  datatype ApiStep = ApiStep(storage: Storage, effects: seq<Effect>, result: ApiResult)

  function CallerHeaders(options: RequestOptions): map<string, string> {
    options.headers.GetOr(map[])
  }

  /** The first attempt of `authedAPIRequest` with the stored token. */
  function FirstAttempt(env: Env, endpoint: string, options: RequestOptions, token: Option<string>): Request {
    Request(env.apiUrl + NormalizeEndpoint(endpoint), options.httpMethod, RequestHeaders(CallerHeaders(options), token), [])
  }

  /** The single retry of `authedAPIRequest` with the refreshed token. */
  function Retry(env: Env, endpoint: string, options: RequestOptions, token: string): Request {
    Request(env.apiUrl + NormalizeEndpoint(endpoint), options.httpMethod, RetryHeaders(CallerHeaders(options), token), [])
  }

  /** The handling of a 401 answer, after the first attempt: without the
      expiry marker, a redirect; with it, one refresh and then either the
      retry, whose outcome is the result, or a redirect. */
  function Unauthorized(env: Env, storage: Storage, endpoint: string, options: RequestOptions,
                        text: string, refreshReply: TokenReply, retry: Reply): ApiStep
  {
    if !Contains(text, ExpiryMarker) then ApiStep(Cleared(storage), [Login(env)], NoResult)
    else
      var step := Refresh(env, storage, refreshReply);
      if Truthy(step.token) then
        ApiStep(step.storage, step.effects + [Fetch(Retry(env, endpoint, options, step.token.value))],
          match retry
          case Got(r) => Returned(r)
          case Threw(message) => Rejects(message))
      else ApiStep(Cleared(step.storage), step.effects + [Login(env)], NoResult)
  }

  /** `authedAPIRequest`, given the outcomes of the first attempt, of the
      refresh and of the retry (each used only if that step happens). */
  function ApiRequest(env: Env, storage: Storage, endpoint: string, options: RequestOptions,
                      first: Reply, refreshReply: TokenReply, retry: Reply): ApiStep
  {
    var sent := [Fetch(FirstAttempt(env, endpoint, options, Lookup(storage, TokenKey)))];
    match first
    case Threw(message) =>
      ApiStep(storage, sent + (if message != AuthRequiredMessage then [Alert(ApiFailurePrefix + message)] else []), NoResult)
    case Got(response) =>
      if IsOk(response.status) then ApiStep(storage, sent, Returned(response))
      else if response.status != 401 then ApiStep(storage, sent, NoResult)
      else
        var rest := Unauthorized(env, storage, endpoint, options, response.text, refreshReply, retry);
        ApiStep(rest.storage, sent + rest.effects, rest.result)
  }

  /** Requests sent to the API itself: those without a form body, since
      every request to the token endpoint carries its form fields. */
  predicate IsApiFetch(e: Effect) {
    e.Fetch? && e.request.form == []
  }

  function ApiFetches(effects: seq<Effect>): nat {
    if effects == [] then 0
    else (if IsApiFetch(effects[0]) then 1 else 0) + ApiFetches(effects[1..])
  }

  lemma {:induction false} ApiFetchesAppend(a: seq<Effect>, b: seq<Effect>)
    ensures ApiFetches(a + b) == ApiFetches(a) + ApiFetches(b)
  {
    if a != [] {
      assert (a + b)[1..] == a[1..] + b;
      ApiFetchesAppend(a[1..], b);
    } else {
      assert a + b == b;
    }
  }

  /** The request policy: a failed first request is reported (unless it
      failed for want of authentication) and changes nothing else; an ok
      response is returned as it is; any other status but 401 is dropped
      without a redirect; a 401 without the expiry marker redirects with no
      refresh; with the marker, exactly one refresh attempt and, if it
      yields a token, exactly one retry carrying `Bearer <token>` whose
      outcome is returned as it is, the refreshed pair staying stored;
      otherwise a redirect. */
  lemma ApiPolicy(env: Env, storage: Storage, endpoint: string, options: RequestOptions,
                  first: Reply, refreshReply: TokenReply, retry: Reply)
    ensures var step := ApiRequest(env, storage, endpoint, options, first, refreshReply, retry);
      var attempt := Fetch(FirstAttempt(env, endpoint, options, Lookup(storage, TokenKey)));
      var refresh := Refresh(env, storage, refreshReply);
      && (first.Threw? ==>
            step == ApiStep(storage,
              [attempt] + (if first.message != AuthRequiredMessage then [Alert(ApiFailurePrefix + first.message)] else []),
              NoResult))
      && (first.Got? && IsOk(first.response.status) ==> step == ApiStep(storage, [attempt], Returned(first.response)))
      && (first.Got? && !IsOk(first.response.status) && first.response.status != 401 ==>
            step == ApiStep(storage, [attempt], NoResult))
      && (first.Got? && first.response.status == 401 && !Contains(first.response.text, ExpiryMarker) ==>
            step == ApiStep(Cleared(storage), [attempt, Login(env)], NoResult))
      && (first.Got? && first.response.status == 401 && Contains(first.response.text, ExpiryMarker) && Truthy(refresh.token) ==>
            && step.effects == [attempt] + refresh.effects + [Fetch(Retry(env, endpoint, options, refresh.token.value))]
            && |refresh.effects| == 1
            && step.storage == refresh.storage
            && step.result == (if retry.Got? then Returned(retry.response) else Rejects(retry.message)))
      && (first.Got? && first.response.status == 401 && Contains(first.response.text, ExpiryMarker) && !Truthy(refresh.token) ==>
            step.effects == [attempt] + refresh.effects + [Login(env)] && step.result == NoResult &&
            step.storage == Cleared(storage))
  {
    if first.Got? && first.response.status == 401 {
      UnauthorizedPolicy(env, storage, endpoint, options, first.response.text, refreshReply, retry);
    }
  }

  /** The 401 part of the policy: no marker, a redirect and nothing else;
      with the marker, the single token request of the refresh, then the
      retry with the new token or a redirect that leaves both keys removed. */
  lemma UnauthorizedPolicy(env: Env, storage: Storage, endpoint: string, options: RequestOptions,
                           text: string, refreshReply: TokenReply, retry: Reply)
    ensures var step := Unauthorized(env, storage, endpoint, options, text, refreshReply, retry);
      var refresh := Refresh(env, storage, refreshReply);
      && (!Contains(text, ExpiryMarker) ==> step == ApiStep(Cleared(storage), [Login(env)], NoResult))
      && (Contains(text, ExpiryMarker) && Truthy(refresh.token) ==>
            && step.effects == refresh.effects + [Fetch(Retry(env, endpoint, options, refresh.token.value))]
            && |refresh.effects| == 1
            && step.storage == refresh.storage
            && step.result == (if retry.Got? then Returned(retry.response) else Rejects(retry.message)))
      && (Contains(text, ExpiryMarker) && !Truthy(refresh.token) ==>
            step.effects == refresh.effects + [Login(env)] && step.result == NoResult &&
            step.storage == Cleared(storage))
  {
    RefreshOutcomes(env, storage, refreshReply);
    RefreshEffects(env, storage, refreshReply);
  }

  lemma ApiFetchesSingle(e: Effect)
    ensures ApiFetches([e]) == if IsApiFetch(e) then 1 else 0
  {
    assert [e][1..] == [];
  }

  /** A refresh never asks the API itself, only the token endpoint. */
  lemma RefreshAsksNoApi(env: Env, storage: Storage, reply: TokenReply)
    ensures ApiFetches(Refresh(env, storage, reply).effects) == 0
  {
    RefreshEffects(env, storage, reply);
    var refresh := Lookup(storage, RefreshKey);
    if Truthy(refresh) {
      ApiFetchesSingle(Fetch(RefreshRequest(env, refresh.value)));
    }
  }

  /** The shape every run of `authedAPIRequest` takes: the first attempt,
      requests that do not reach the API, then at most one more effect. */
  lemma {:induction false} FetchesBound(attempt: Effect, middle: seq<Effect>, rest: seq<Effect>)
    requires ApiFetches(middle) == 0 && |rest| <= 1
    ensures ApiFetches([attempt] + middle + rest) <= 2
  {
    ApiFetchesSingle(attempt);
    ApiFetchesAppend([attempt], middle);
    ApiFetchesAppend([attempt] + middle, rest);
    if rest != [] {
      assert rest == [rest[0]];
      ApiFetchesSingle(rest[0]);
    }
  }

  /** Whatever happens, the API is asked at most twice (the first attempt
      and the single retry), and the first attempt comes first. */
  lemma AtMostOneRetry(env: Env, storage: Storage, endpoint: string, options: RequestOptions,
                       first: Reply, refreshReply: TokenReply, retry: Reply)
    ensures var step := ApiRequest(env, storage, endpoint, options, first, refreshReply, retry);
      |step.effects| >= 1 && step.effects[0] == Fetch(FirstAttempt(env, endpoint, options, Lookup(storage, TokenKey))) &&
      ApiFetches(step.effects) <= 2
  {
    var step := ApiRequest(env, storage, endpoint, options, first, refreshReply, retry);
    var attempt := Fetch(FirstAttempt(env, endpoint, options, Lookup(storage, TokenKey)));
    match first
    case Threw(message) =>
      var rest := if message != AuthRequiredMessage then [Alert(ApiFailurePrefix + message)] else [];
      FetchesBound(attempt, [], rest);
      assert step.effects == [attempt] + [] + rest;
    case Got(response) =>
      if IsOk(response.status) || response.status != 401 {
        FetchesBound(attempt, [], []);
        assert step.effects == [attempt] + [] + [];
      } else {
        var rest := Unauthorized(env, storage, endpoint, options, response.text, refreshReply, retry);
        UnauthorizedAsksOnce(env, storage, endpoint, options, response.text, refreshReply, retry);
        ApiFetchesSingle(attempt);
        ApiFetchesAppend([attempt], rest.effects);
      }
  }

  /** After a 401 the API is asked at most once more: the retry. */
  lemma UnauthorizedAsksOnce(env: Env, storage: Storage, endpoint: string, options: RequestOptions,
                             text: string, refreshReply: TokenReply, retry: Reply)
    ensures ApiFetches(Unauthorized(env, storage, endpoint, options, text, refreshReply, retry).effects) <= 1
  {
    var refresh := Refresh(env, storage, refreshReply);
    if !Contains(text, ExpiryMarker) {
      ApiFetchesSingle(Login(env));
    } else {
      RefreshAsksNoApi(env, storage, refreshReply);
      var last := if Truthy(refresh.token) then Fetch(Retry(env, endpoint, options, refresh.token.value)) else Login(env);
      ApiFetchesAppend(refresh.effects, [last]);
      ApiFetchesSingle(last);
    }
  }

  /** No transition writes one token key without the other. */
  lemma RefreshKeepsPairs(env: Env, storage: Storage, reply: TokenReply)
    requires Paired(storage)
    ensures Paired(Refresh(env, storage, reply).storage)
  {
  }

  lemma ExchangeKeepsPairs(env: Env, storage: Storage, code: string, reply: TokenReply)
    requires Paired(storage)
    ensures Paired(Exchange(env, storage, code, reply).storage)
  {
  }

  lemma ApiRequestKeepsPairs(env: Env, storage: Storage, endpoint: string, options: RequestOptions,
                             first: Reply, refreshReply: TokenReply, retry: Reply)
    requires Paired(storage)
    ensures Paired(ApiRequest(env, storage, endpoint, options, first, refreshReply, retry).storage)
  {
    RefreshKeepsPairs(env, storage, refreshReply);
  }

  // ---------------------------------------------------------------------
  // The browser state, changed in place
  // ---------------------------------------------------------------------

  /** `localStorage` and the record of what the page has done. */
  class Browser {
    const env: Env
    var storage: Storage
    var effects: seq<Effect>

    constructor (env: Env, storage: Storage)
      ensures this.env == env && this.storage == storage && effects == []
    {
      this.env := env;
      this.storage := storage;
      effects := [];
    }

    /** `getToken()`: the stored token, or `null` when none is stored. */
    function GetToken(): (r: Option<string>)
      reads this
      ensures r.Some? <==> TokenKey in storage
      ensures r.Some? ==> r.value == storage[TokenKey]
    {
      Lookup(storage, TokenKey)
    }

    /** `getRefreshToken()`: the stored refresh token, or `null` when none
        is stored. */
    function GetRefreshToken(): (r: Option<string>)
      reads this
      ensures r.Some? <==> RefreshKey in storage
      ensures r.Some? ==> r.value == storage[RefreshKey]
    {
      Lookup(storage, RefreshKey)
    }

    /** `saveTokens(token, refresh)`: both keys, one after the other. */
    method SaveTokens(token: string, refresh: string)
      modifies this`storage
      ensures storage == Saved(old(storage), token, refresh)
      ensures GetToken() == Some(token) && GetRefreshToken() == Some(refresh) && Paired(storage)
    {
      storage := storage[TokenKey := token];
      storage := storage[RefreshKey := refresh];
    }

    /** `clearTokens()`: both keys removed, one after the other. */
    method ClearTokens()
      modifies this`storage
      ensures storage == Cleared(old(storage))
      ensures GetToken().None? && GetRefreshToken().None? && !IsAuthenticated(storage)
    {
      storage := storage - {TokenKey};
      storage := storage - {RefreshKey};
    }

    /** `redirectToLogin()`: clears the tokens, then navigates to the
        authorization endpoint. */
    method RedirectToLogin()
      modifies this
      ensures storage == Cleared(old(storage))
      ensures effects == old(effects) + [Login(env)]
    {
      ClearTokens();
      effects := effects + [Login(env)];
    }

    /** `createAlert(...)`: a notification shown to the user. */
    method Notify(message: string)
      modifies this`effects
      ensures effects == old(effects) + [Alert(message)]
    {
      effects := effects + [Alert(message)];
    }

    /** `refreshToken()`. */
    method RefreshToken(reply: TokenReply) returns (newToken: Option<string>)
      modifies this
      ensures var step := Refresh(env, old(storage), reply);
        storage == step.storage && effects == old(effects) + step.effects && newToken == step.token
    {
      var refresh := GetRefreshToken();
      if !Truthy(refresh) {
        return None;
      }
      effects := effects + [Fetch(RefreshRequest(env, refresh.value))];
      match reply {
        case TokenThrew(_) =>
          ClearTokens();
          return None;
        case TokenGot(status, body) =>
          if !IsOk(status) {
            return None;
          }
          match body {
            case None =>
              ClearTokens();
              return None;
            case Some(data) =>
              SaveTokens(StoredString(data.idToken), StoredString(data.refreshToken));
              return data.idToken;
          }
      }
    }

    /** `exchangeCodeForTokens(code)`. */
    method ExchangeCodeForTokens(code: string, reply: TokenReply) returns (data: Option<TokenBody>)
      modifies this
      ensures var step := Exchange(env, old(storage), code, reply);
        storage == step.storage && effects == old(effects) + step.effects && data == step.data
    {
      effects := effects + [Fetch(CodeRequest(env, code))];
      match reply {
        case TokenThrew(_) =>
          Notify(ExchangeFailureMessage);
          return None;
        case TokenGot(status, body) =>
          if !IsOk(status) {
            ClearTokens();
            RedirectToLogin();
            return None;
          }
          match body {
            case None =>
              Notify(ExchangeFailureMessage);
              return None;
            case Some(d) =>
              SaveTokens(StoredString(d.idToken), StoredString(d.refreshToken));
              return Some(d);
          }
      }
    }

    /** `authedAPIRequest(endpoint, options)`. */
    method AuthedApiRequest(endpoint: string, options: RequestOptions,
                            first: Reply, refreshReply: TokenReply, retry: Reply) returns (result: ApiResult)
      modifies this
      ensures var step := ApiRequest(env, old(storage), endpoint, options, first, refreshReply, retry);
        storage == step.storage && effects == old(effects) + step.effects && result == step.result
    {
      var token := GetToken();
      var path := NormalizeEndpoint(endpoint);
      var url := env.apiUrl + path;
      var caller := CallerHeaders(options);
      var request := Request(url, options.httpMethod, RequestHeaders(caller, token), []);
      assert request == FirstAttempt(env, endpoint, options, Lookup(storage, TokenKey));
      effects := effects + [Fetch(request)];
      result := NoResult;
      match first {
        case Threw(message) =>
          if message != AuthRequiredMessage {
            Notify(ApiFailurePrefix + message);
          }
        case Got(response) =>
          if IsOk(response.status) {
            result := Returned(response);
          } else if response.status == 401 {
            result := HandleUnauthorized(endpoint, options, response.text, refreshReply, retry);
          }
      }
    }

    /** The 401 branch of `authedAPIRequest(endpoint, options)`. */
    method HandleUnauthorized(endpoint: string, options: RequestOptions,
                              text: string, refreshReply: TokenReply, retry: Reply) returns (result: ApiResult)
      modifies this
      ensures var step := Unauthorized(env, old(storage), endpoint, options, text, refreshReply, retry);
        storage == step.storage && effects == old(effects) + step.effects && result == step.result
    {
      result := NoResult;
      if Contains(text, ExpiryMarker) {
        var newToken := RefreshToken(refreshReply);
        if Truthy(newToken) {
          var url := env.apiUrl + NormalizeEndpoint(endpoint);
          effects := effects + [Fetch(Request(url, options.httpMethod, RetryHeaders(CallerHeaders(options), newToken.value), []))];
          result := if retry.Got? then Returned(retry.response) else Rejects(retry.message);
        } else {
          RedirectToLogin();
        }
      } else {
        RedirectToLogin();
      }
    }
  }
}
