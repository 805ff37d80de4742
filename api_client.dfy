/** The browser side of the HTTP client in frontend/src/lib/api.ts: the browser's `localStorage`, the request
    interceptor that attaches the bearer token, the response interceptor that refreshes the access token once
    and re-issues a request that got a 401, `authAPI.logout` and the `authUtils` storage helpers.
    The transport is not modelled: what the server answers is passed in. */
module ApiClient {
  import opened Wrappers

  const AccessKey := "access_token"
  const RefreshKey := "refresh_token"
  const UserKey := "user"
  /** The three storage keys that make up a session. */
  const AuthKeys: set<string> := {AccessKey, RefreshKey, UserKey}

  const AuthorizationHeader := "Authorization"
  const LoginRoute := "/login"
  const RefreshPath := "/accounts/token/refresh/"
  const LogoutPath := "/accounts/logout/"
  /** The headers every request of the axios instance starts with. */
  const JsonHeaders: map<string, string> := map["Content-Type" := "application/json"]

  /** The `User` shape the frontend receives from the accounts endpoints. */
  datatype UserProfile = UserProfile(
    id: int, username: string, email: string, firstName: string, lastName: string,
    fullName: string, profilePictureUrl: string, subscriptionPlan: string, isActiveSubscription: bool)

  /** A `localStorage` entry: a token as text, or the user profile (stored as JSON, kept opaque here). */
  datatype Stored = Text(text: string) | Json(profile: UserProfile)

  /** One value of a field-keyed error body: a single message or a list of them. */
  datatype ErrorValue = Message(text: string) | Messages(texts: seq<string>)

  /** A rejected request: the HTTP status when a response arrived, and the response body when it had one. */
  datatype ApiError = ApiError(status: Option<int>, data: Option<seq<ErrorValue>>)

  /** What the server answers to one send of a request: the response data (of the type the endpoint returns),
      or a rejection. */
  datatype Reply<T> = Received(data: T) | Rejected(error: ApiError)

  /** What the token-refresh endpoint answers: a new access token, or a failure of any kind. */
  datatype RefreshReply = Issued(access: string) | RefreshFailed

  /** A network call, as recorded in the client's log. `Send` is one transmission of a request through the
      interceptors, with the `Authorization` header it carried and the body it posted; `Exchange` is a call to
      the refresh endpoint with the refresh token. */
  datatype Call =
    | Send(verb: string, path: string, authorization: Option<string>, body: map<string, string>)
    | Exchange(refresh: string)

  /** How `api(config)` settles a request: the first answer stands; or the refresh endpoint, called with
      `refresh`, issued `access` and the request was re-sent with it; or that refresh failed, so the session
      was cleared and the page sent to the login route. */
  datatype Settlement = Direct | Retried(refresh: string, access: string) | LoggedOut(refresh: string)

  function Authorization(headers: map<string, string>): Option<string> {
    if AuthorizationHeader in headers then Some(headers[AuthorizationHeader]) else None
  }

  /** JavaScript truthiness of a `localStorage.getItem` result: present and not the empty string. */
  predicate Truthy(item: Option<string>) {
    item.Some? && item.value != ""
  }

  /** The request interceptor's effect on the headers, given the stored access token. */
  function WithBearer(headers: map<string, string>, token: Option<string>): (h: map<string, string>)
    ensures Truthy(token) ==> Authorization(h) == Some("Bearer " + token.value)
    ensures Truthy(token) ==> h - {AuthorizationHeader} == headers - {AuthorizationHeader}
    ensures !Truthy(token) ==> h == headers
  {
    if Truthy(token) then headers[AuthorizationHeader := "Bearer " + token.value] else headers
  }

  /** The response interceptor refreshes exactly when the request got a 401, has not been retried yet, and a
      refresh token is stored. */
  predicate Refreshes(error: ApiError, retried: bool, refreshToken: Option<string>) {
    error.status == Some(401) && !retried && Truthy(refreshToken)
  }

  predicate Unauthorized<T>(reply: Reply<T>) {
    reply.Rejected? && reply.error.status == Some(401)
  }

  function ReplyResult<T>(reply: Reply<T>): Result<T, ApiError> {
    match reply
    case Received(data) => Ok(data)
    case Rejected(error) => Err(error)
  }

  /** The settlement of a request whose first answer is `first`, given its retry mark, the stored refresh token
      and what the refresh endpoint would answer. */
  function Settle<T>(first: Reply<T>, retried: bool, refreshToken: Option<string>, refresh: RefreshReply)
    : Settlement
  {
    if first.Received? || !Refreshes(first.error, retried, refreshToken) then Direct
    else if refresh.Issued? then Retried(refreshToken.value, refresh.access)
    else LoggedOut(refreshToken.value)
  }

  /** What the caller of `api(config)` receives: the answer to the re-sent request after a refresh, otherwise
      the first answer (a failed refresh rejects with the original error). */
  function Settled<T>(s: Settlement, first: Reply<T>, second: Reply<T>): Result<T, ApiError> {
    if s.Retried? then ReplyResult(second) else ReplyResult(first)
  }

  /** `localStorage` once a request has settled. */
  function SettledStorage(storage: map<string, Stored>, s: Settlement): map<string, Stored> {
    match s
    case Direct => storage
    case Retried(_, access) => storage[AccessKey := Text(access)]
    case LoggedOut(_) => storage - AuthKeys
  }

  /** `window.location.href` once a request has settled. */
  function SettledLocation(location: string, s: Settlement): string {
    if s.LoggedOut? then LoginRoute else location
  }

  /** The network calls a request makes before it settles, the first send carrying `authorization`. */
  function SettledCalls(verb: string, path: string, body: map<string, string>, authorization: Option<string>,
                        s: Settlement): seq<Call>
  {
    var sent := Send(verb, path, authorization, body);
    match s
    case Direct => [sent]
    case Retried(refresh, access) => [sent, Exchange(refresh), Send(verb, path, Some("Bearer " + access), body)]
    case LoggedOut(refresh) => [sent, Exchange(refresh)]
  }

  /** The `Authorization` header the request interceptor gives a new request. */
  function Bearer(token: Option<string>): (h: Option<string>)
    ensures h == Authorization(WithBearer(JsonHeaders, token))
  {
    if Truthy(token) then Some("Bearer " + token.value) else None
  }

  /** Only a 401 on a request not yet retried, with a refresh token stored, makes the interceptor act; every
      other answer settles directly. */
  lemma SettlesDirectly<T>(first: Reply<T>, retried: bool, refreshToken: Option<string>, refresh: RefreshReply)
    ensures Settle(first, retried, refreshToken, refresh) == Direct <==>
      !(Unauthorized(first) && !retried && Truthy(refreshToken))
  {
  }

  /** Whatever the settlement, the storage keys outside the session are untouched; a direct settlement
      leaves storage as it was. */
  lemma SettlementKeepsOtherKeys(storage: map<string, Stored>, s: Settlement)
    ensures SettledStorage(storage, s) - AuthKeys == storage - AuthKeys
    ensures s.Direct? ==> SettledStorage(storage, s) == storage
  {
    if s.Retried? {
      assert AccessKey in AuthKeys;
    }
  }

  /** An axios request configuration: the endpoint, the headers, and the `_retry` mark the response
      interceptor sets on it. */
  class RequestConfig {
    const verb: string
    const path: string
    const body: map<string, string>
    var headers: map<string, string>
    var retry: bool

    constructor (verb: string, path: string, body: map<string, string>)
      ensures this.verb == verb && this.path == path && this.body == body
      ensures headers == JsonHeaders && !retry
    {
      this.verb := verb;
      this.path := path;
      this.body := body;
      headers := JsonHeaders;
      retry := false;
    }
  }

  /** The browser state the client reads and writes: `localStorage`, `window.location.href`, and a log of the
      network calls made. */
  class Client {
    var storage: map<string, Stored>
    var location: string
    ghost var calls: seq<Call>

    /** Tokens are stored as text and the user as a profile: every writer below keeps this. */
    ghost predicate Valid()
      reads this
    {
      && (AccessKey in storage ==> storage[AccessKey].Text?)
      && (RefreshKey in storage ==> storage[RefreshKey].Text?)
      && (UserKey in storage ==> storage[UserKey].Json?)
    }

    constructor (storage: map<string, Stored>, location: string)
      requires AccessKey in storage ==> storage[AccessKey].Text?
      requires RefreshKey in storage ==> storage[RefreshKey].Text?
      requires UserKey in storage ==> storage[UserKey].Json?
      ensures Valid() && this.storage == storage && this.location == location && calls == []
    {
      this.storage := storage;
      this.location := location;
      calls := [];
    }

    /** `localStorage.getItem(key)` for a token key. */
    function Token(key: string): Option<string>
      reads this
    {
      if key in storage && storage[key].Text? then Some(storage[key].text) else None
    }

    /** `authUtils.isAuthenticated`: a non-empty access token is stored. */
    function IsAuthenticated(): (b: bool)
      reads this
      ensures b <==> AccessKey in storage && storage[AccessKey].Text? && storage[AccessKey].text != ""
    {
      Truthy(Token(AccessKey))
    }

    /** `authUtils.getUser`: the stored profile, or null when there is none. */
    function GetUser(): (u: Option<UserProfile>)
      reads this
      requires Valid()
      ensures u.Some? <==> UserKey in storage
    {
      if UserKey in storage then Some(storage[UserKey].profile) else None
    }

    /** `authUtils.setTokens`. */
    method SetTokens(access: string, refresh: string)
      requires Valid()
      modifies this
      ensures Valid() && location == old(location) && calls == old(calls)
      ensures storage == old(storage)[AccessKey := Text(access)][RefreshKey := Text(refresh)]
      ensures IsAuthenticated() <==> access != ""
      ensures GetUser() == old(GetUser())
    {
      storage := storage[AccessKey := Text(access)];
      storage := storage[RefreshKey := Text(refresh)];
    }

    /** `authUtils.setUser`. */
    method SetUser(user: UserProfile)
      requires Valid()
      modifies this
      ensures Valid() && location == old(location) && calls == old(calls)
      ensures storage == old(storage)[UserKey := Json(user)]
      ensures GetUser() == Some(user)
      ensures Token(AccessKey) == old(Token(AccessKey)) && Token(RefreshKey) == old(Token(RefreshKey))
    {
      storage := storage[UserKey := Json(user)];
    }

    /** `authUtils.clearAuth`: removes exactly the three session keys. */
    method ClearAuth()
      requires Valid()
      modifies this
      ensures Valid() && location == old(location) && calls == old(calls)
      ensures storage == old(storage) - AuthKeys
      ensures !IsAuthenticated() && GetUser() == None && Token(RefreshKey) == None
    {
      storage := storage - {AccessKey};
      storage := storage - {RefreshKey};
      storage := storage - {UserKey};
    }

    /** The request interceptor: attach `Bearer <token>` when an access token is stored. */
    method AttachToken(req: RequestConfig)
      modifies req
      ensures req.headers == WithBearer(old(req.headers), Token(AccessKey))
      ensures req.retry == old(req.retry)
    {
      var token := Token(AccessKey);
      if Truthy(token) {
        req.headers := req.headers[AuthorizationHeader := "Bearer " + token.value];
      }
    }

    /** `api(config)`: the request interceptor, one transmission, and on an error the response interceptor.
        `first` is the server's answer to this transmission; `refresh` and `second` are the answers to the
        refresh call and to the re-issued request, should the response interceptor make them. */
    method Dispatch<T>(req: RequestConfig, first: Reply<T>, refresh: RefreshReply, second: Reply<T>)
      returns (result: Result<T, ApiError>)
      requires Valid()
      modifies this, req
      decreases if req.retry then 0 else 1, 1
      ensures Valid()
      ensures req.retry == (old(req.retry) || Unauthorized(first))
      ensures storage - AuthKeys == old(storage) - AuthKeys
      ensures
        var s := Settle(first, old(req.retry), old(Token(RefreshKey)), refresh);
        && result == Settled(s, first, second)
        && storage == SettledStorage(old(storage), s)
        && location == SettledLocation(old(location), s)
        && calls == old(calls) + SettledCalls(req.verb, req.path, req.body,
                                              Authorization(WithBearer(old(req.headers), old(Token(AccessKey)))), s)
    {
      AttachToken(req);
      calls := calls + [Send(req.verb, req.path, Authorization(req.headers), req.body)];
      match first
      case Received(data) =>
        result := Ok(data);
      case Rejected(error) =>
        result := OnResponseError(req, error, refresh, second);
    }

    /** The response interceptor's error handler. */
    method OnResponseError<T>(req: RequestConfig, error: ApiError, refresh: RefreshReply, second: Reply<T>)
      returns (result: Result<T, ApiError>)
      requires Valid()
      modifies this, req
      decreases if req.retry then 0 else 1, 0
      ensures Valid()
      ensures req.retry == (old(req.retry) || error.status == Some(401))
      ensures storage - AuthKeys == old(storage) - AuthKeys
      ensures
        if !Refreshes(error, old(req.retry), old(Token(RefreshKey))) then
          && result == Err(error)
          && storage == old(storage) && location == old(location) && calls == old(calls)
        else if refresh.Issued? then
          && result == ReplyResult(second)
          && storage == old(storage)[AccessKey := Text(refresh.access)] && location == old(location)
          && calls == old(calls) + [Exchange(old(Token(RefreshKey)).value),
                                    Send(req.verb, req.path, Some("Bearer " + refresh.access), req.body)]
        else
          && result == Err(error)
          && storage == old(storage) - AuthKeys && location == LoginRoute
          && calls == old(calls) + [Exchange(old(Token(RefreshKey)).value)]
    {
      if error.status == Some(401) && !req.retry {
        req.retry := true;
        var refreshToken := Token(RefreshKey);
        if Truthy(refreshToken) {
          calls := calls + [Exchange(refreshToken.value)];
          match refresh
          case Issued(access) =>
            storage := storage[AccessKey := Text(access)];
            req.headers := req.headers[AuthorizationHeader := "Bearer " + access];
            assert Settle(second, req.retry, Token(RefreshKey), refresh) == Direct;
            result := Dispatch(req, second, refresh, second);
            return;
          case RefreshFailed =>
            storage := storage - {AccessKey};
            storage := storage - {RefreshKey};
            storage := storage - {UserKey};
            location := LoginRoute;
        }
      }
      result := Err(error);
    }

    /** `authAPI.logout`: post the refresh token to the logout endpoint when one is stored, then clear the
        session keys. When the post rejects, the error propagates before the method's own clearing; the
        interceptor may still have refreshed the access token, or cleared the session and gone to the login
        route, on the way. */
    method Logout<T>(first: Reply<T>, refresh: RefreshReply, second: Reply<T>) returns (r: Outcome<ApiError>)
      requires Valid()
      modifies this
      ensures Valid()
      ensures !Truthy(old(Token(RefreshKey))) ==>
        && r == Pass && calls == old(calls)
        && storage == old(storage) - AuthKeys && location == old(location)
      ensures Truthy(old(Token(RefreshKey))) ==>
        var s := Settle(first, false, old(Token(RefreshKey)), refresh);
        var result := Settled(s, first, second);
        && calls == old(calls) + SettledCalls("POST", LogoutPath, map[RefreshKey := old(Token(RefreshKey)).value],
                                              Bearer(old(Token(AccessKey))), s)
        && location == SettledLocation(old(location), s)
        && (result.Ok? ==> r == Pass && storage == old(storage) - AuthKeys)
        && (result.Err? ==> r == Fail(result.error) && storage == SettledStorage(old(storage), s))
    {
      var refreshToken := Token(RefreshKey);
      if Truthy(refreshToken) {
        var req := new RequestConfig("POST", LogoutPath, map[RefreshKey := refreshToken.value]);
        var result := Dispatch(req, first, refresh, second);
        if result.Err? {
          return Fail(result.error);
        }
      }
      ClearAuth();
      r := Pass;
    }
  }
}
