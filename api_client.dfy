/**
 * `GenericAPIClient`: logs in to a service's API by trying a list of login
 * endpoints with three request formats, keeps the token or session cookies
 * it obtained, and makes authenticated requests, logging in again once on
 * a 401. The login server and the API are parameters mapping each request
 * to its reply.
 */
module ApiClient {
  import opened Wrappers
  import opened Text
  import Urls

  /** Python truthiness of an optional string: present and non-empty. */
  predicate Truthy(v: Option<string>) {
    v.Some? && v.value != ""
  }

  // ---------------------------------------------------------------------
  // Construction
  // ---------------------------------------------------------------------

  datatype ClientError = EmptyBaseUrl

  /**
   * The base URL `__init__` keeps: an empty or missing one raises
   * `ValueError`; otherwise `https://` is added when no scheme is given and
   * trailing slashes are dropped.
   */
  function BaseUrl(baseUrl: Option<string>): (r: Result<string, ClientError>)
    ensures r.Failure? <==> !Truthy(baseUrl)
    ensures r.Success? ==> r.value == Urls.NormalizeUrl(baseUrl.value)
    ensures r.Success? ==> r.value != [] && r.value[0] == 'h' && r.value[|r.value| - 1] != '/'
    ensures r.Success? && Urls.HasScheme(baseUrl.value) ==> StartsWith(baseUrl.value, r.value)
    ensures r.Success? && !Urls.HasScheme(baseUrl.value) && baseUrl.value[|baseUrl.value| - 1] != '/' ==>
      r.value == Urls.Https + baseUrl.value
  {
    if !Truthy(baseUrl) then Failure(EmptyBaseUrl)
    else
      Urls.NormalizeNonEmpty(baseUrl.value);
      if Urls.HasScheme(baseUrl.value) then
        Urls.ExplicitSchemeIsKept(baseUrl.value);
        Success(Urls.NormalizeUrl(baseUrl.value))
      else if baseUrl.value[|baseUrl.value| - 1] != '/' then
        Urls.BareHostGetsHttps(baseUrl.value);
        Success(Urls.NormalizeUrl(baseUrl.value))
      else Success(Urls.NormalizeUrl(baseUrl.value))
  }

  /** What the constructor stores and never changes. */
  datatype Config = Config(baseUrl: string, username: Option<string>, password: Option<string>,
                           apiKey: Option<string>, authEndpoint: Option<string>)

  // ---------------------------------------------------------------------
  // Login endpoints and error hints
  // ---------------------------------------------------------------------

  /** The login endpoints tried when none is configured, in this order. */
  const CommonAuthEndpoints: seq<string> := [
    "/api/v2/auth/login",
    "/api/auth",
    "/api/login",
    "/auth/login",
    "/login",
    "/api/v1/auth",
    "/api/v1/login",
    "/auth"
  ]

  /** `_try_find_auth_endpoint`: the configured endpoint alone, or the fixed list. */
  function AuthEndpoints(authEndpoint: Option<string>): (r: seq<string>)
    ensures Truthy(authEndpoint) ==> r == [authEndpoint.value]
    ensures !Truthy(authEndpoint) ==> r == CommonAuthEndpoints
    ensures |r| >= 1 && forall k :: 0 <= k < |r| ==> r[k] != ""
  {
    if Truthy(authEndpoint) then [authEndpoint.value] else CommonAuthEndpoints
  }

  /** A decoded JSON body: not JSON at all, an object of string fields, or some other JSON value. */
  datatype JsonBody = NotJson | JsonObject(fields: map<string, string>) | JsonOther

  const BearerHint := "Expected Bearer token authentication"
  const BasicHint := "Expected HTTP Basic authentication"
  const HeaderHint := "WWW-Authenticate header suggests: "

  /** `data.get('error', data.get('message', ''))`, lower-cased. */
  function ErrorMessage(m: map<string, string>): string {
    Lower(if "error" in m then m["error"] else if "message" in m then m["message"] else "")
  }

  const FormHint := "Response suggests form data (application/x-www-form-urlencoded)"
  const JsonHint := "Response suggests JSON body"
  const TokenHint := "Response suggests Bearer token"
  const ApiKeyHint := "Response suggests API key authentication"

  predicate MentionsForm(msg: string) {
    Contains(msg, "form") || Contains(msg, "application/x-www-form-urlencoded")
  }

  predicate MentionsToken(msg: string) {
    Contains(msg, "bearer") || Contains(msg, "token")
  }

  predicate MentionsApiKey(msg: string) {
    Contains(msg, "api key") || Contains(msg, "api_key")
  }

  /**
   * The hint read from an error message: form data before JSON before a
   * bearer token before an API key; at most one hint.
   */
  function MessageHints(msg: string): (r: seq<string>)
    ensures |r| <= 1
    ensures MentionsForm(msg) ==> r == [FormHint]
    ensures !MentionsForm(msg) && Contains(msg, "json") ==> r == [JsonHint]
    ensures !MentionsForm(msg) && !Contains(msg, "json") && MentionsToken(msg) ==> r == [TokenHint]
    ensures !MentionsForm(msg) && !Contains(msg, "json") && !MentionsToken(msg) && MentionsApiKey(msg) ==> r == [ApiKeyHint]
    ensures r == [] <==> !MentionsForm(msg) && !Contains(msg, "json") && !MentionsToken(msg) && !MentionsApiKey(msg)
  {
    if MentionsForm(msg) then [FormHint]
    else if Contains(msg, "json") then [JsonHint]
    else if MentionsToken(msg) then [TokenHint]
    else if MentionsApiKey(msg) then [ApiKeyHint]
    else []
  }

  lemma {:induction false} NothingInEmpty(sub: string)
    requires sub != ""
    ensures !Contains("", sub)
  {
  }

  /**
   * `_detect_auth_method_from_response`: a `WWW-Authenticate` header naming
   * bearer, then basic, decides outright; otherwise the hints found are
   * joined with `'; '`, and no hint at all gives None.
   */
  function AuthHint(wwwAuthenticate: string, contentType: string, body: JsonBody): (r: Option<string>)
    ensures Contains(Lower(wwwAuthenticate), "bearer") ==> r == Some(BearerHint)
    ensures !Contains(Lower(wwwAuthenticate), "bearer") && Contains(Lower(wwwAuthenticate), "basic") ==> r == Some(BasicHint)
    ensures wwwAuthenticate == "" && !(Contains(Lower(contentType), "application/json") && body.JsonObject?) ==> r.None?
    ensures r.Some? ==> r.value != ""
    ensures !Contains(Lower(wwwAuthenticate), "bearer") && !Contains(Lower(wwwAuthenticate), "basic") && wwwAuthenticate != "" ==>
      r.Some? && StartsWith(r.value, HeaderHint + wwwAuthenticate)
    ensures wwwAuthenticate == "" && Contains(Lower(contentType), "application/json") && body.JsonObject? ==>
      r == (if MessageHints(ErrorMessage(body.fields)) == [] then None else Some(MessageHints(ErrorMessage(body.fields))[0]))
  {
    NothingInEmpty("bearer");
    NothingInEmpty("basic");
    if Contains(Lower(wwwAuthenticate), "bearer") then Some(BearerHint)
    else if Contains(Lower(wwwAuthenticate), "basic") then Some(BasicHint)
    else
      var headerHints := if wwwAuthenticate != "" then [HeaderHint + wwwAuthenticate] else [];
      var bodyHints :=
        if Contains(Lower(contentType), "application/json") && body.JsonObject? then MessageHints(ErrorMessage(body.fields))
        else [];
      var hints := headerHints + bodyHints;
      if hints == [] then None
      else
        JoinNonEmpty(hints, "; ");
        JoinStartsWithFirst(hints, "; ");
        Some(Join(hints, "; "))
  }

  lemma {:induction false} JoinNonEmpty(parts: seq<string>, sep: string)
    requires |parts| >= 1 && parts[0] != ""
    ensures Join(parts, sep) != ""
  {
    if |parts| > 1 {
      assert Join(parts, sep) == parts[0] + sep + Join(parts[1..], sep);
    }
  }

  // ---------------------------------------------------------------------
  // One login attempt
  // ---------------------------------------------------------------------

  /** The three request formats, tried in this order; an API key is the fourth way in. */
  datatype AuthMethod = JsonAuth | FormAuth | BasicAuth | ApiKeyAuth

  function MethodName(m: AuthMethod): string {
    match m
    case JsonAuth => "json"
    case FormAuth => "form"
    case BasicAuth => "basic"
    case ApiKeyAuth => "api_key"
  }

  const LoginMethods: seq<AuthMethod> := [JsonAuth, FormAuth, BasicAuth]

  /** A login POST: where, in which format, with which credentials. */
  datatype LoginRequest = LoginRequest(url: string, format: AuthMethod, username: string, password: string)

  /**
   * The reply to a login POST. `LoginRaised` is any exception: timeout,
   * connection error or anything else.
   */
  datatype LoginReply =
    | LoginResponse(status: int, contentType: string, wwwAuthenticate: string, text: string, body: JsonBody, setsCookie: bool)
    | LoginRaised

  type Login = LoginRequest -> LoginReply

  /** The token fields looked at, in this order. */
  const TokenFields: seq<string> := ["jwt", "token", "access_token", "auth_token"]

  /** The first of `keys` with a non-empty value in `m`. */
  function FirstToken(m: map<string, string>, keys: seq<string>): (r: Option<string>)
    ensures r.Some? ==> r.value != "" && exists k :: k in keys && k in m && m[k] == r.value
    ensures r.None? <==> forall k :: k in keys && k in m ==> m[k] == ""
    decreases |keys|
  {
    if keys == [] then None
    else if keys[0] in m && m[keys[0]] != "" then Some(m[keys[0]])
    else
      var rest := FirstToken(m, keys[1..]);
      assert forall k :: k in keys ==> k == keys[0] || k in keys[1..];
      rest
  }

  /** The token found is the first non-empty one: every key before it is absent or empty. */
  lemma {:induction false} FirstTokenIsFirst(m: map<string, string>, keys: seq<string>)
    ensures FirstToken(m, keys).Some? ==>
      exists i :: 0 <= i < |keys| && keys[i] in m && m[keys[i]] == FirstToken(m, keys).value
                  && forall j :: 0 <= j < i && keys[j] in m ==> m[keys[j]] == ""
    decreases |keys|
  {
    if keys == [] || (keys[0] in m && m[keys[0]] != "") {
    } else if FirstToken(m, keys[1..]).Some? {
      FirstTokenIsFirst(m, keys[1..]);
      var i :| 0 <= i < |keys[1..]| && keys[1..][i] in m && m[keys[1..][i]] == FirstToken(m, keys[1..]).value
               && forall j :: 0 <= j < i && keys[1..][j] in m ==> m[keys[1..][j]] == "";
      assert forall j :: 0 <= j < i + 1 && keys[j] in m ==> m[keys[j]] == "" by {
        forall j | 0 <= j < i + 1 && keys[j] in m
          ensures m[keys[j]] == ""
        {
          if j > 0 {
            assert keys[j] == keys[1..][j - 1];
          }
        }
      }
      assert keys[i + 1] == keys[1..][i];
    }
  }

  /** Whether a login reply counts as a success, and the bearer token it carries, if any. */
  datatype Attempt = Attempt(ok: bool, token: Option<string>)

  /**
   * The verdict on one login reply, given whether the session holds cookies
   * once the reply is in: only a 200 can succeed, through an `ok` text body,
   * a token field of a JSON object, or cookies.
   */
  function LoginAttempt(reply: LoginReply, jar: bool): (a: Attempt)
    ensures a.ok ==> reply.LoginResponse? && reply.status == 200
    ensures a.token.Some? ==> a.ok && reply.body.JsonObject? && a.token == FirstToken(reply.body.fields, TokenFields)
    ensures reply.LoginResponse? && reply.status == 200 && reply.body.JsonObject? && FirstToken(reply.body.fields, TokenFields).Some? ==> a.ok
    ensures reply.LoginResponse? && reply.status == 200 && reply.body.NotJson? ==> (a.ok <==> jar || PlainOk(reply))
    ensures reply.LoginResponse? && reply.body.JsonOther? ==> (a.ok <==> reply.status == 200 && PlainOk(reply))
    ensures reply.LoginResponse? && reply.status == 200 && PlainOk(reply) ==> a == Attempt(true, None)
    ensures reply.LoginResponse? && reply.status == 200 && !PlainOk(reply) && reply.body.JsonObject? ==>
      a.token == FirstToken(reply.body.fields, TokenFields) && (a.token.None? ==> a.ok == jar)
  {
    if reply.LoginRaised? || reply.status != 200 then Attempt(false, None)
    else if PlainOk(reply) then Attempt(true, None)
    else
      match reply.body
      case JsonOther => Attempt(false, None)
      case NotJson => Attempt(jar, None)
      case JsonObject(m) =>
        var t := FirstToken(m, TokenFields);
        if t.Some? then Attempt(true, t) else Attempt(jar, None)
  }

  /** A plain-text or HTML body saying `ok`, in any case. */
  predicate PlainOk(reply: LoginReply)
    requires reply.LoginResponse?
  {
    var contentType := Lower(reply.contentType);
    && (Contains(contentType, "text/plain") || Contains(contentType, "text/html"))
    && Contains(Strip(Lower(reply.text)), "ok")
  }

  /** The client's mutable state: token, method that worked, session headers, whether the session holds cookies. */
  datatype ClientState = ClientState(token: Option<string>, authMethod: Option<AuthMethod>, headers: map<string, string>, cookies: bool)

  /** Whether the session holds cookies once `reply` is in: those it held, and those the reply sets. */
  function Jar(reply: LoginReply, cookies: bool): bool {
    if reply.LoginResponse? then cookies || reply.setsCookie else cookies
  }

  /** Whether a login POST succeeds when the session holds cookies (`cookies`) before it is sent. */
  function Verdict(req: LoginRequest, login: Login, cookies: bool): bool {
    LoginAttempt(login(req), Jar(login(req), cookies)).ok
  }

  /**
   * `_try_authenticate_with_method`: one login POST. Cookies set by the reply
   * stay in the session whatever the verdict; a token becomes the bearer
   * header.
   */
  function TryMethod(st: ClientState, req: LoginRequest, login: Login): (r: (bool, ClientState))
    ensures r.1.authMethod == st.authMethod
    ensures st.cookies ==> r.1.cookies
    ensures !r.0 ==> r.1 == st.(cookies := r.1.cookies)
    ensures r.0 ==> login(req).LoginResponse? && login(req).status == 200
    ensures r.1.token != st.token ==> r.0 && r.1.token.Some? && r.1.headers == st.headers["Authorization" := "Bearer " + r.1.token.value]
    ensures r.0 == Verdict(req, login, st.cookies) && r.1.cookies == Jar(login(req), st.cookies)
    ensures var a := LoginAttempt(login(req), Jar(login(req), st.cookies));
      && (a.token.Some? ==> r.1.token == a.token && r.1.headers == st.headers["Authorization" := "Bearer " + a.token.value])
      && (a.token.None? ==> r.1.token == st.token && r.1.headers == st.headers)
  {
    var reply := login(req);
    var jar := Jar(reply, st.cookies);
    var a := LoginAttempt(reply, jar);
    if a.token.Some? then
      (true, st.(token := a.token, headers := st.headers["Authorization" := "Bearer " + a.token.value], cookies := jar))
    else (a.ok, st.(cookies := jar))
  }

  // ---------------------------------------------------------------------
  // The login search
  // ---------------------------------------------------------------------

  datatype Search = Found(endpoint: nat, format: AuthMethod, st: ClientState) | Exhausted(st: ClientState)

  /** The login POST to `endpoint` in format `m` with the configured credentials. */
  function LoginAt(cfg: Config, endpoint: string, m: AuthMethod): LoginRequest {
    LoginRequest(cfg.baseUrl + endpoint, m, cfg.username.GetOr(""), cfg.password.GetOr(""))
  }

  /**
   * The nested search of `authenticate` from endpoint `i` and format `j` on:
   * endpoints in the outer loop, formats in the inner one, first success wins.
   */
  function SearchFrom(cfg: Config, endpoints: seq<string>, i: nat, j: nat, st: ClientState, login: Login): (r: Search)
    requires i <= |endpoints| && j <= |LoginMethods|
    ensures r.Found? ==> i <= r.endpoint < |endpoints| && r.format in LoginMethods
    ensures r.Found? && r.endpoint == i ==> r.format in LoginMethods[j..]
    ensures r.Exhausted? ==> r.st == st.(cookies := r.st.cookies)
    ensures r.st.authMethod == st.authMethod
    ensures st.cookies ==> r.st.cookies
    decreases |endpoints| - i, |LoginMethods| - j
  {
    if i == |endpoints| then Exhausted(st)
    else if j == |LoginMethods| then SearchFrom(cfg, endpoints, i + 1, 0, st, login)
    else
      var req := LoginAt(cfg, endpoints[i], LoginMethods[j]);
      var (ok, st') := TryMethod(st, req, login);
      if ok then Found(i, LoginMethods[j], st')
      else SearchFrom(cfg, endpoints, i, j + 1, st', login)
  }

  /**
   * A search that finds a pair found it by a successful login POST to that
   * pair, sent from the state the search began with, up to its cookies.
   */
  lemma {:induction false} SearchFoundSucceeded(cfg: Config, endpoints: seq<string>, i: nat, j: nat, st: ClientState, login: Login)
    requires i <= |endpoints| && j <= |LoginMethods|
    ensures var r := SearchFrom(cfg, endpoints, i, j, st, login);
      r.Found? ==> exists c: bool :: TryMethod(st.(cookies := c), LoginAt(cfg, endpoints[r.endpoint], r.format), login) == (true, r.st)
    decreases |endpoints| - i, |LoginMethods| - j
  {
    if i == |endpoints| {
    } else if j == |LoginMethods| {
      SearchFoundSucceeded(cfg, endpoints, i + 1, 0, st, login);
    } else {
      var req := LoginAt(cfg, endpoints[i], LoginMethods[j]);
      var t := TryMethod(st, req, login);
      if t.0 {
        assert st.(cookies := st.cookies) == st;
      } else {
        SearchFoundSucceeded(cfg, endpoints, i, j + 1, t.1, login);
        var r := SearchFrom(cfg, endpoints, i, j + 1, t.1, login);
        if r.Found? {
          var c: bool :| TryMethod(t.1.(cookies := c), LoginAt(cfg, endpoints[r.endpoint], r.format), login) == (true, r.st);
          assert t.1.(cookies := c) == st.(cookies := c);
        }
      }
    }
  }

  /** The pair (`i`, `j`) is refused whatever cookies the session holds. */
  predicate Refused(cfg: Config, endpoints: seq<string>, login: Login, i: nat, j: nat)
    requires i < |endpoints| && j < |LoginMethods|
  {
    var req := LoginAt(cfg, endpoints[i], LoginMethods[j]);
    !Verdict(req, login, false) && !Verdict(req, login, true)
  }

  /** The pair (`i`, `j`) is accepted whatever cookies the session holds. */
  predicate Accepted(cfg: Config, endpoints: seq<string>, login: Login, i: nat, j: nat)
    requires i < |endpoints| && j < |LoginMethods|
  {
    var req := LoginAt(cfg, endpoints[i], LoginMethods[j]);
    Verdict(req, login, false) && Verdict(req, login, true)
  }

  /**
   * First success wins: when every pair from (`i`, `j`) up to (`k`, `q`) is
   * refused and (`k`, `q`) is accepted, the search stops at (`k`, `q`).
   */
  lemma {:induction false} FirstSuccessWins(cfg: Config, endpoints: seq<string>, i: nat, j: nat, st: ClientState, login: Login,
                                            k: nat, q: nat)
    requires i <= k < |endpoints| && j <= |LoginMethods| && q < |LoginMethods| && (i < k || j <= q)
    requires forall p, n :: i <= p <= k && 0 <= n < |LoginMethods| && (i < p || j <= n) && (p < k || n < q) ==>
               Refused(cfg, endpoints, login, p, n)
    requires Accepted(cfg, endpoints, login, k, q)
    ensures var r := SearchFrom(cfg, endpoints, i, j, st, login);
      r.Found? && r.endpoint == k && r.format == LoginMethods[q]
    decreases |endpoints| - i, |LoginMethods| - j
  {
    if j == |LoginMethods| {
      FirstSuccessWins(cfg, endpoints, i + 1, 0, st, login, k, q);
    } else {
      var req := LoginAt(cfg, endpoints[i], LoginMethods[j]);
      var t := TryMethod(st, req, login);
      if i == k && j == q {
        assert t.0;
      } else {
        assert Refused(cfg, endpoints, login, i, j);
        FirstSuccessWins(cfg, endpoints, i, j + 1, t.1, login, k, q);
      }
    }
  }

  /**
   * `authenticate`: an API key is used as it is, without a request; without
   * both a username and a password nothing is tried; otherwise the search
   * runs and its first success is recorded. A failed search leaves the
   * token, headers and method as they were.
   */
  function AuthenticateSpec(cfg: Config, st: ClientState, login: Login): (r: (bool, ClientState))
    ensures Truthy(cfg.apiKey) ==>
      r == (true, st.(token := cfg.apiKey, headers := st.headers["X-API-Key" := cfg.apiKey.value], authMethod := Some(ApiKeyAuth)))
    ensures !Truthy(cfg.apiKey) && (!Truthy(cfg.username) || !Truthy(cfg.password)) ==> r == (false, st)
    ensures !r.0 ==> r.1 == st.(cookies := r.1.cookies)
    ensures r.0 && !Truthy(cfg.apiKey) ==> r.1.authMethod.Some? && r.1.authMethod.value in LoginMethods
    ensures !Truthy(cfg.apiKey) && Truthy(cfg.username) && Truthy(cfg.password) ==>
      var s := SearchFrom(cfg, AuthEndpoints(cfg.authEndpoint), 0, 0, st, login);
      && (r.0 <==> s.Found?)
      && (s.Found? ==> r.1 == s.st.(authMethod := Some(s.format)))
      && (s.Exhausted? ==> r.1 == s.st)
  {
    if Truthy(cfg.apiKey) then
      (true, st.(token := cfg.apiKey, headers := st.headers["X-API-Key" := cfg.apiKey.value], authMethod := Some(ApiKeyAuth)))
    else if !Truthy(cfg.username) || !Truthy(cfg.password) then (false, st)
    else
      match SearchFrom(cfg, AuthEndpoints(cfg.authEndpoint), 0, 0, st, login)
      case Found(_, m, st') => (true, st'.(authMethod := Some(m)))
      case Exhausted(st') => (false, st')
  }

  /** JSON is always tried before the other formats: a JSON login that works at the first endpoint is the one used. */
  lemma JsonWinsAtFirstEndpoint(cfg: Config, st: ClientState, login: Login)
    requires !Truthy(cfg.apiKey) && Truthy(cfg.username) && Truthy(cfg.password)
    requires TryMethod(st, LoginRequest(cfg.baseUrl + AuthEndpoints(cfg.authEndpoint)[0], JsonAuth,
                                         cfg.username.value, cfg.password.value), login).0
    ensures AuthenticateSpec(cfg, st, login).0 && AuthenticateSpec(cfg, st, login).1.authMethod == Some(JsonAuth)
  {
    var endpoints := AuthEndpoints(cfg.authEndpoint);
    assert SearchFrom(cfg, endpoints, 0, 0, st, login).Found?;
  }

  /** A login server that never answers 200 makes every search fail, at every endpoint and in every format. */
  lemma {:induction false} NoOkNoLogin(cfg: Config, endpoints: seq<string>, i: nat, j: nat, st: ClientState, login: Login)
    requires i <= |endpoints| && j <= |LoginMethods|
    requires forall q :: login(q).LoginRaised? || login(q).status != 200
    ensures SearchFrom(cfg, endpoints, i, j, st, login).Exhausted?
    decreases |endpoints| - i, |LoginMethods| - j
  {
    if i == |endpoints| {
    } else if j == |LoginMethods| {
      NoOkNoLogin(cfg, endpoints, i + 1, 0, st, login);
    } else {
      var req := LoginAt(cfg, endpoints[i], LoginMethods[j]);
      var (ok, st') := TryMethod(st, req, login);
      assert !ok;
      NoOkNoLogin(cfg, endpoints, i, j + 1, st', login);
    }
  }

  // ---------------------------------------------------------------------
  // Requests
  // ---------------------------------------------------------------------

  /** An API call as sent: method, URL, and the session's headers and cookies. */
  datatype ApiRequest = ApiRequest(verb: string, url: string, headers: map<string, string>, cookies: bool)

  /** The reply to an API call, or the exception it raised. */
  datatype ApiReply =
    | ApiResponse(status: int, text: string, body: JsonBody, setsCookie: bool)
    | ApiTimeout
    | ApiConnectionError
    | ApiFailure

  type Api = ApiRequest -> ApiReply

  /** The exceptions `request` raises. */
  datatype RequestError = TimeoutError(url: string) | ConnectionFailed(url: string) | HttpError(status: int, text: string) | OtherError

  /** What `request` returns: None, True for an empty body, the decoded JSON, the text, or an exception. */
  datatype Outcome = NoData | Done | Data(body: JsonBody) | Text(text: string) | Raised(error: RequestError)

  /** The endpoint with a leading `/`. */
  function WithSlash(endpoint: string): (r: string)
    ensures StartsWith(r, "/")
    ensures StartsWith(endpoint, "/") ==> r == endpoint
    ensures !StartsWith(endpoint, "/") ==> r == "/" + endpoint && r[1..] == endpoint
  {
    if StartsWith(endpoint, "/") then endpoint else "/" + endpoint
  }

  /** `text[:n]` */
  function Prefix(text: string, n: nat): string {
    if |text| <= n then text else text[..n]
  }

  /**
   * `raise_for_status` and the parsing of a final reply: 4xx and 5xx raise,
   * an empty body is True, JSON is decoded, anything else is the text.
   */
  function Finish(reply: ApiReply, url: string): (r: Outcome)
    ensures reply.ApiResponse? && 400 <= reply.status < 600 ==> r == Raised(HttpError(reply.status, Prefix(reply.text, 300)))
    ensures reply.ApiResponse? && !(400 <= reply.status < 600) && reply.text == "" ==> r == Done
    ensures r.Data? ==> reply.ApiResponse? && reply.body == r.body && !reply.body.NotJson?
    ensures !reply.ApiResponse? ==> r.Raised?
    ensures reply.ApiTimeout? ==> r == Raised(TimeoutError(url))
    ensures reply.ApiConnectionError? ==> r == Raised(ConnectionFailed(url))
    ensures reply.ApiFailure? ==> r == Raised(OtherError)
    ensures reply.ApiResponse? && !(400 <= reply.status < 600) && reply.text != "" ==>
      r == (if reply.body.NotJson? then Text(reply.text) else Data(reply.body))
  {
    match reply
    case ApiTimeout => Raised(TimeoutError(url))
    case ApiConnectionError => Raised(ConnectionFailed(url))
    case ApiFailure => Raised(OtherError)
    case ApiResponse(status, text, body, _) =>
      if 400 <= status < 600 then Raised(HttpError(status, Prefix(text, 300)))
      else if text == "" then Done
      else if body.NotJson? then Text(text)
      else Data(body)
  }

  /** The session after a reply: cookies it sets are kept. */
  function Received(st: ClientState, reply: ApiReply): ClientState {
    if reply.ApiResponse? then st.(cookies := st.cookies || reply.setsCookie) else st
  }

  /** The call after the log-in check, with one retry after a fresh login on a 401. */
  function CallWithRetry(cfg: Config, st: ClientState, httpMethod: string, url: string, login: Login, api: Api): (r: (Outcome, ClientState))
    ensures api(ApiRequest(httpMethod, url, st.headers, st.cookies)).ApiResponse?
            && api(ApiRequest(httpMethod, url, st.headers, st.cookies)).status == 401
            && !AuthenticateSpec(cfg, Received(st, api(ApiRequest(httpMethod, url, st.headers, st.cookies))), login).0
            ==> r.0 == NoData
    ensures var reply := api(ApiRequest(httpMethod, url, st.headers, st.cookies));
      var a := AuthenticateSpec(cfg, Received(st, reply), login);
      var retry := api(ApiRequest(httpMethod, url, a.1.headers, a.1.cookies));
      reply.ApiResponse? && reply.status == 401 ==>
        r == (if a.0 then (Finish(retry, url), Received(a.1, retry)) else (NoData, a.1))
    ensures !(api(ApiRequest(httpMethod, url, st.headers, st.cookies)).ApiResponse?
              && api(ApiRequest(httpMethod, url, st.headers, st.cookies)).status == 401)
            ==> r == (Finish(api(ApiRequest(httpMethod, url, st.headers, st.cookies)), url),
                      Received(st, api(ApiRequest(httpMethod, url, st.headers, st.cookies))))
  {
    var reply := api(ApiRequest(httpMethod, url, st.headers, st.cookies));
    var st1 := Received(st, reply);
    if reply.ApiResponse? && reply.status == 401 then
      var (ok, st2) := AuthenticateSpec(cfg, st1, login);
      if !ok then (NoData, st2)
      else
        var retry := api(ApiRequest(httpMethod, url, st2.headers, st2.cookies));
        (Finish(retry, url), Received(st2, retry))
    else (Finish(reply, url), st1)
  }

  /**
   * `request`: logs in first when the client holds neither a token nor
   * cookies, giving None if that fails; then calls `base_url` + the endpoint
   * with a leading `/`.
   */
  function RequestSpec(cfg: Config, st: ClientState, httpMethod: string, endpoint: string, login: Login, api: Api): (r: (Outcome, ClientState))
    ensures !Truthy(st.token) && !st.cookies && !AuthenticateSpec(cfg, st, login).0 ==>
      r == (NoData, AuthenticateSpec(cfg, st, login).1)
    ensures (Truthy(st.token) || st.cookies) ==> r == CallWithRetry(cfg, st, httpMethod, cfg.baseUrl + WithSlash(endpoint), login, api)
    ensures !Truthy(st.token) && !st.cookies && AuthenticateSpec(cfg, st, login).0 ==>
      r == CallWithRetry(cfg, AuthenticateSpec(cfg, st, login).1, httpMethod, cfg.baseUrl + WithSlash(endpoint), login, api)
  {
    var url := cfg.baseUrl + WithSlash(endpoint);
    if !Truthy(st.token) && !st.cookies then
      var (ok, st1) := AuthenticateSpec(cfg, st, login);
      if !ok then (NoData, st1)
      else CallWithRetry(cfg, st1, httpMethod, url, login, api)
    else CallWithRetry(cfg, st, httpMethod, url, login, api)
  }

  /** A request without any way to log in never reaches the API: the answer is None whatever the API would say. */
  lemma NoCredentialsNoCall(cfg: Config, st: ClientState, httpMethod: string, endpoint: string, login: Login, api1: Api, api2: Api)
    requires !Truthy(st.token) && !st.cookies
    requires !Truthy(cfg.apiKey) && !Truthy(cfg.username)
    ensures RequestSpec(cfg, st, httpMethod, endpoint, login, api1) == RequestSpec(cfg, st, httpMethod, endpoint, login, api2)
    ensures RequestSpec(cfg, st, httpMethod, endpoint, login, api1) == (NoData, st)
  {
  }

  /**
   * The retry happens at most once: an API that answers 401 to everything
   * ends in None (the login failed) or in the HTTP error of the second 401,
   * never in a third call.
   */
  lemma RetryAtMostOnce(cfg: Config, st: ClientState, httpMethod: string, endpoint: string, login: Login, api: Api)
    requires forall q :: api(q).ApiResponse? && api(q).status == 401
    ensures var r := RequestSpec(cfg, st, httpMethod, endpoint, login, api).0;
      r == NoData || (r.Raised? && r.error.HttpError? && r.error.status == 401)
  {
  }

  /** With an API key, the 401 retry sends the same key again. */
  lemma ApiKeyRetriesWithSameKey(cfg: Config, st: ClientState, httpMethod: string, endpoint: string, login: Login, api: Api)
    requires Truthy(cfg.apiKey) && st.token == cfg.apiKey && st.headers["X-API-Key" := cfg.apiKey.value] == st.headers
    ensures var st1 := Received(st, api(ApiRequest(httpMethod, cfg.baseUrl + WithSlash(endpoint), st.headers, st.cookies)));
      AuthenticateSpec(cfg, st1, login).1.headers == st.headers
  {
  }

  // ---------------------------------------------------------------------
  // The client object
  // ---------------------------------------------------------------------

  class GenericApiClient {
    const config: Config
    var token: Option<string>
    var authMethod: Option<AuthMethod>
    var headers: map<string, string>
    var cookies: bool

    function State(): ClientState
      reads this
    {
      ClientState(token, authMethod, headers, cookies)
    }

    /** The part of `__init__` after the base URL was checked and normalised. */
    constructor (cfg: Config)
      ensures config == cfg && State() == ClientState(None, None, map[], false)
    {
      config := cfg;
      token := None;
      authMethod := None;
      headers := map[];
      cookies := false;
    }

    /** `_try_find_auth_endpoint`; the documentation lookup only runs for fewer than three candidates, which never happens. */
    method TryFindAuthEndpoint() returns (candidates: seq<string>)
      ensures candidates == AuthEndpoints(config.authEndpoint)
    {
      if Truthy(config.authEndpoint) {
        return [config.authEndpoint.value];
      }
      candidates := [];
      candidates := candidates + CommonAuthEndpoints;
      if |candidates| < 3 {
        assert false;
      }
    }

    /** `_try_authenticate_with_method` */
    method TryAuthenticateWithMethod(url: string, m: AuthMethod, login: Login) returns (ok: bool)
      modifies this
      ensures (ok, State()) == TryMethod(old(State()), LoginRequest(url, m, config.username.GetOr(""), config.password.GetOr("")), login)
    {
      var reply := login(LoginRequest(url, m, config.username.GetOr(""), config.password.GetOr("")));
      if reply.LoginRaised? {
        return false;
      }
      cookies := cookies || reply.setsCookie;
      if reply.status != 200 {
        return false;
      }
      if PlainOk(reply) {
        return true;
      }
      match reply.body {
        case JsonOther =>
          return false;
        case JsonObject(fields) =>
          var t := FirstToken(fields, TokenFields);
          if t.Some? {
            token := t;
            headers := headers["Authorization" := "Bearer " + t.value];
            return true;
          }
        case NotJson =>
      }
      ok := cookies;
    }

    /** `authenticate` */
    method Authenticate(login: Login) returns (ok: bool)
      modifies this
      ensures (ok, State()) == AuthenticateSpec(config, old(State()), login)
    {
      if Truthy(config.apiKey) {
        token := config.apiKey;
        headers := headers["X-API-Key" := config.apiKey.value];
        authMethod := Some(ApiKeyAuth);
        return true;
      }
      if !Truthy(config.username) || !Truthy(config.password) {
        return false;
      }
      var endpoints := TryFindAuthEndpoint();
      ghost var st0 := State();
      for i := 0 to |endpoints|
        invariant SearchFrom(config, endpoints, i, 0, State(), login) == SearchFrom(config, endpoints, 0, 0, st0, login)
      {
        var url := config.baseUrl + endpoints[i];
        for j := 0 to |LoginMethods|
          invariant SearchFrom(config, endpoints, i, j, State(), login) == SearchFrom(config, endpoints, 0, 0, st0, login)
        {
          ok := TryAuthenticateWithMethod(url, LoginMethods[j], login);
          if ok {
            authMethod := Some(LoginMethods[j]);
            return true;
          }
        }
      }
      return false;
    }

    /** `request` */
    method Request(httpMethod: string, endpoint: string, login: Login, api: Api) returns (r: Outcome)
      modifies this
      ensures (r, State()) == RequestSpec(config, old(State()), httpMethod, endpoint, login, api)
    {
      if !Truthy(token) && !cookies {
        var ok := Authenticate(login);
        if !ok {
          return NoData;
        }
      }
      var path := endpoint;
      if !StartsWith(path, "/") {
        path := "/" + path;
      }
      var url := config.baseUrl + path;
      var reply := api(ApiRequest(httpMethod, url, headers, cookies));
      if reply.ApiResponse? {
        cookies := cookies || reply.setsCookie;
        if reply.status == 401 {
          var ok := Authenticate(login);
          if !ok {
            return NoData;
          }
          reply := api(ApiRequest(httpMethod, url, headers, cookies));
          if reply.ApiResponse? {
            cookies := cookies || reply.setsCookie;
          }
        }
      }
      r := Finish(reply, url);
    }
  }

  /** `GenericAPIClient(...)`: a missing or empty base URL raises, anything else makes a fresh client. */
  method NewClient(baseUrl: Option<string>, username: Option<string>, password: Option<string>,
                   apiKey: Option<string>, authEndpoint: Option<string>) returns (r: Result<GenericApiClient, ClientError>)
    ensures r.Failure? <==> !Truthy(baseUrl)
    ensures r.Success? ==>
      && fresh(r.value)
      && r.value.config == Config(BaseUrl(baseUrl).value, username, password, apiKey, authEndpoint)
      && r.value.State() == ClientState(None, None, map[], false)
  {
    var url := BaseUrl(baseUrl);
    if url.Failure? {
      return Failure(url.error);
    }
    var client := new GenericApiClient(Config(url.value, username, password, apiKey, authEndpoint));
    r := Success(client);
  }
}
