/** The session state of frontend/src/contexts/AuthContext.tsx: the signed-in user, the loading flag, and the
    operations that establish, refresh and end a session. Each `authAPI` call these operations await goes
    through the client's `Dispatch`, interceptors included; the server's answers to it are passed in. */
module AuthContext {
  import opened Wrappers
  import opened ApiClient

  const LoginEndpoint := "/accounts/login/"
  const RegisterEndpoint := "/accounts/register/"
  const GoogleOAuthEndpoint := "/accounts/google-oauth/"
  const ProfileEndpoint := "/accounts/profile/"

  datatype Tokens = Tokens(access: string, refresh: string)

  /** The body the login, registration and Google endpoints answer with. */
  datatype AuthResponse = AuthResponse(tokens: Tokens, user: UserProfile)

  /** The storage a successful sign-in leaves behind. */
  function SignedIn(storage: map<string, Stored>, response: AuthResponse): map<string, Stored> {
    storage[AccessKey := Text(response.tokens.access)][RefreshKey := Text(response.tokens.refresh)]
      [UserKey := Json(response.user)]
  }

  class AuthProvider {
    var user: Option<UserProfile>
    var isLoading: bool
    const client: Client

    ghost predicate Valid()
      reads this, client
    {
      client.Valid()
    }

    /** The context's `isAuthenticated`: derived from `user` at every render, so it says nothing about the
        stored tokens. */
    function IsAuthenticated(): (b: bool)
      reads this
      ensures b <==> user != None
    {
      user.Some?
    }

    constructor (client: Client)
      requires client.Valid()
      ensures Valid() && this.client == client
      ensures user == None && isLoading && !IsAuthenticated()
    {
      this.client := client;
      user := None;
      isLoading := true;
    }

    /** `initializeAuth`, run once on mount: fetch the profile when an access token is stored; on failure clear
        the stored session. It never throws, and loading ends on every path. */
    method InitializeAuth(first: Reply<UserProfile>, refresh: RefreshReply, second: Reply<UserProfile>)
      requires Valid()
      modifies this, client
      ensures Valid() && !isLoading
      ensures !old(client.IsAuthenticated()) ==>
        && user == old(user) && client.storage == old(client.storage)
        && client.calls == old(client.calls) && client.location == old(client.location)
      ensures old(client.IsAuthenticated()) ==>
        var s := Settle(first, false, old(client.Token(RefreshKey)), refresh);
        var result := Settled(s, first, second);
        && client.calls == old(client.calls) + SettledCalls("GET", ProfileEndpoint, map[],
                                                            Bearer(old(client.Token(AccessKey))), s)
        && client.location == SettledLocation(old(client.location), s)
        && (result.Ok? ==> user == Some(result.value) && client.storage == SettledStorage(old(client.storage), s))
        && (result.Err? ==> user == old(user) && client.storage == old(client.storage) - AuthKeys)
    {
      if client.IsAuthenticated() {
        var req := new RequestConfig("GET", ProfileEndpoint, map[]);
        var result := client.Dispatch(req, first, refresh, second);
        match result
        case Ok(u) =>
          user := Some(u);
        case Err(_) =>
          client.ClearAuth();
      }
      isLoading := false;
    }

    /** The body shared by `login`, `register` and `googleLogin`: post to the endpoint; on success store the
        tokens and the user and set the user; on failure rethrow. What the interceptor did on the way (a
        refreshed access token, or a cleared session and the login route) stays. */
    method SignIn(endpoint: string, body: map<string, string>,
                  first: Reply<AuthResponse>, refresh: RefreshReply, second: Reply<AuthResponse>)
      returns (r: Outcome<ApiError>)
      requires Valid()
      modifies this, client
      ensures Valid() && isLoading == old(isLoading)
      ensures first.Rejected? && !Truthy(old(client.Token(RefreshKey))) ==>
        r == Fail(first.error) && user == old(user) && client.storage == old(client.storage)
        && client.location == old(client.location)
      ensures
        var s := Settle(first, false, old(client.Token(RefreshKey)), refresh);
        var result := Settled(s, first, second);
        && client.calls == old(client.calls) + SettledCalls("POST", endpoint, body, Bearer(old(client.Token(AccessKey))), s)
        && client.location == SettledLocation(old(client.location), s)
        && (result.Ok? ==>
              && r == Pass && user == Some(result.value.user)
              && client.storage == SignedIn(SettledStorage(old(client.storage), s), result.value)
              && client.GetUser() == user
              && (client.IsAuthenticated() <==> result.value.tokens.access != ""))
        && (result.Err? ==>
              r == Fail(result.error) && user == old(user) && client.storage == SettledStorage(old(client.storage), s))
    {
      var req := new RequestConfig("POST", endpoint, body);
      var result := client.Dispatch(req, first, refresh, second);
      match result
      case Ok(response) =>
        client.SetTokens(response.tokens.access, response.tokens.refresh);
        client.SetUser(response.user);
        user := Some(response.user);
        r := Pass;
      case Err(error) =>
        r := Fail(error);
    }

    /** `login` with `{username, password}`. A 401 for bad credentials passes through the interceptor like any
        other 401. */
    method Login(credentials: map<string, string>,
                 first: Reply<AuthResponse>, refresh: RefreshReply, second: Reply<AuthResponse>)
      returns (r: Outcome<ApiError>)
      requires Valid()
      modifies this, client
      ensures Valid() && isLoading == old(isLoading)
      ensures first.Rejected? && !Truthy(old(client.Token(RefreshKey))) ==>
        r == Fail(first.error) && user == old(user) && client.storage == old(client.storage)
        && client.location == old(client.location)
      ensures
        var s := Settle(first, false, old(client.Token(RefreshKey)), refresh);
        var result := Settled(s, first, second);
        && client.calls == old(client.calls) + SettledCalls("POST", LoginEndpoint, credentials,
                                                            Bearer(old(client.Token(AccessKey))), s)
        && client.location == SettledLocation(old(client.location), s)
        && (result.Ok? ==>
              r == Pass && user == Some(result.value.user)
              && client.storage == SignedIn(SettledStorage(old(client.storage), s), result.value))
        && (result.Err? ==>
              r == Fail(result.error) && user == old(user) && client.storage == SettledStorage(old(client.storage), s))
    {
      r := SignIn(LoginEndpoint, credentials, first, refresh, second);
    }

    /** `register` with the whole registration form. */
    method Register(form: map<string, string>,
                    first: Reply<AuthResponse>, refresh: RefreshReply, second: Reply<AuthResponse>)
      returns (r: Outcome<ApiError>)
      requires Valid()
      modifies this, client
      ensures Valid() && isLoading == old(isLoading)
      ensures first.Rejected? && !Truthy(old(client.Token(RefreshKey))) ==>
        r == Fail(first.error) && user == old(user) && client.storage == old(client.storage)
        && client.location == old(client.location)
      ensures
        var s := Settle(first, false, old(client.Token(RefreshKey)), refresh);
        var result := Settled(s, first, second);
        && client.calls == old(client.calls) + SettledCalls("POST", RegisterEndpoint, form,
                                                            Bearer(old(client.Token(AccessKey))), s)
        && client.location == SettledLocation(old(client.location), s)
        && (result.Ok? ==>
              r == Pass && user == Some(result.value.user)
              && client.storage == SignedIn(SettledStorage(old(client.storage), s), result.value))
        && (result.Err? ==>
              r == Fail(result.error) && user == old(user) && client.storage == SettledStorage(old(client.storage), s))
    {
      r := SignIn(RegisterEndpoint, form, first, refresh, second);
    }

    /** `googleLogin` with the credential the Google button hands over. */
    method GoogleLogin(credential: string,
                       first: Reply<AuthResponse>, refresh: RefreshReply, second: Reply<AuthResponse>)
      returns (r: Outcome<ApiError>)
      requires Valid()
      modifies this, client
      ensures Valid() && isLoading == old(isLoading)
      ensures first.Rejected? && !Truthy(old(client.Token(RefreshKey))) ==>
        r == Fail(first.error) && user == old(user) && client.storage == old(client.storage)
        && client.location == old(client.location)
      ensures
        var s := Settle(first, false, old(client.Token(RefreshKey)), refresh);
        var result := Settled(s, first, second);
        && client.calls == old(client.calls) + SettledCalls("POST", GoogleOAuthEndpoint, map["access_token" := credential],
                                                            Bearer(old(client.Token(AccessKey))), s)
        && client.location == SettledLocation(old(client.location), s)
        && (result.Ok? ==>
              r == Pass && user == Some(result.value.user)
              && client.storage == SignedIn(SettledStorage(old(client.storage), s), result.value))
        && (result.Err? ==>
              r == Fail(result.error) && user == old(user) && client.storage == SettledStorage(old(client.storage), s))
    {
      r := SignIn(GoogleOAuthEndpoint, map["access_token" := credential], first, refresh, second);
    }

    /** `logout`: call `authAPI.logout` (whose replies are passed in) and ignore its failure; then, whatever
        happened, clear the stored session and the user. The logout post, and a failed refresh on its way that
        sends the page to the login route, are those of `Client.Logout`. */
    method Logout<T>(first: Reply<T>, refresh: RefreshReply, second: Reply<T>)
      requires Valid()
      modifies this, client
      ensures Valid() && isLoading == old(isLoading)
      ensures user == None && !IsAuthenticated()
      ensures client.storage == old(client.storage) - AuthKeys
      ensures !client.IsAuthenticated() && client.GetUser() == None
      ensures !Truthy(old(client.Token(RefreshKey))) ==>
        client.calls == old(client.calls) && client.location == old(client.location)
      ensures Truthy(old(client.Token(RefreshKey))) ==>
        var s := Settle(first, false, old(client.Token(RefreshKey)), refresh);
        && client.calls == old(client.calls) + SettledCalls("POST", LogoutPath,
                                                            map[RefreshKey := old(client.Token(RefreshKey)).value],
                                                            Bearer(old(client.Token(AccessKey))), s)
        && client.location == SettledLocation(old(client.location), s)
    {
      var _ := client.Logout(first, refresh, second);
      client.ClearAuth();
      user := None;
    }

    /** `updateProfile`: put the data to the profile endpoint; on success the server's user replaces the stored
        and the in-memory user; on failure the error is rethrown, with only what the interceptor did changed. */
    method UpdateProfile(profileData: map<string, string>,
                         first: Reply<UserProfile>, refresh: RefreshReply, second: Reply<UserProfile>)
      returns (r: Outcome<ApiError>)
      requires Valid()
      modifies this, client
      ensures Valid() && isLoading == old(isLoading)
      ensures
        var s := Settle(first, false, old(client.Token(RefreshKey)), refresh);
        var result := Settled(s, first, second);
        && client.calls == old(client.calls) + SettledCalls("PUT", ProfileEndpoint, profileData,
                                                            Bearer(old(client.Token(AccessKey))), s)
        && client.location == SettledLocation(old(client.location), s)
        && (result.Ok? ==>
              && r == Pass && user == Some(result.value) && client.GetUser() == user
              && client.storage == SettledStorage(old(client.storage), s)[UserKey := Json(result.value)])
        && (result.Err? ==>
              r == Fail(result.error) && user == old(user) && client.storage == SettledStorage(old(client.storage), s))
    {
      var req := new RequestConfig("PUT", ProfileEndpoint, profileData);
      var result := client.Dispatch(req, first, refresh, second);
      match result
      case Ok(updated) =>
        client.SetUser(updated);
        user := Some(updated);
        r := Pass;
      case Err(error) =>
        r := Fail(error);
    }
  }

  /** The endpoints whose 401 means the submitted credentials were refused, not that a session expired. */
  predicate CredentialEndpoint(path: string) {
    path == LoginEndpoint || path == RegisterEndpoint || path == GoogleOAuthEndpoint
  }

  /** The settlement the sign-in flow evidently intends: the response interceptor passes a credential
      endpoint's rejection straight to the caller and settles every other request as `Settle` does. */
  function IntendedSettle<T>(path: string, first: Reply<T>, retried: bool, refreshToken: Option<string>,
                             refresh: RefreshReply): Settlement
  {
    if CredentialEndpoint(path) then Direct else Settle(first, retried, refreshToken, refresh)
  }

  /** Under the intended settlement a rejected login, registration or Google sign-in rejects with the
      server's error after one call, whatever refresh token is stored, and leaves storage and location as they
      were, so the caller can show the message. */
  lemma RejectedSignInKeepsSession(endpoint: string, body: map<string, string>, authorization: Option<string>,
                                   storage: map<string, Stored>, location: string, error: ApiError,
                                   refreshToken: Option<string>, refresh: RefreshReply, second: Reply<AuthResponse>)
    requires CredentialEndpoint(endpoint)
    ensures var s := IntendedSettle<AuthResponse>(endpoint, Rejected(error), false, refreshToken, refresh);
      && Settled(s, Rejected(error), second) == Err(error)
      && SettledStorage(storage, s) == storage
      && SettledLocation(location, s) == location
      && SettledCalls("POST", endpoint, body, authorization, s) == [Send("POST", endpoint, authorization, body)]
  {
  }

  /** Everywhere else the intended settlement is the interceptor as written: an expired session on any other
      endpoint is still refreshed. */
  lemma IntendedSettleElsewhere<T>(path: string, first: Reply<T>, refreshToken: Option<string>, refresh: RefreshReply)
    requires !CredentialEndpoint(path) && Unauthorized(first) && Truthy(refreshToken)
    ensures IntendedSettle(path, first, false, refreshToken, refresh) != Direct
  {
  }

  /** A wrong password answered 401 while an expired session's refresh token is still stored: the interceptor
      tries that refresh token, and when the refresh fails the login leaves no session behind and the page on
      the login route, rejecting with the original 401. */
  lemma RejectedLoginCanEndSession(storage: map<string, Stored>, location: string, error: ApiError, t: string)
    requires error.status == Some(401) && t != ""
    ensures var s := Settle<AuthResponse>(Rejected(error), false, Some(t), RefreshFailed);
      && s == LoggedOut(t)
      && Settled<AuthResponse>(s, Rejected(error), Rejected(error)) == Err(error)
      && SettledStorage(storage, s) == storage - AuthKeys
      && SettledLocation(location, s) == LoginRoute
  {
  }
}
