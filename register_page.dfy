/** The sign-up form of frontend/src/app/register/page.tsx: field updates, the password-confirmation guard that
    runs before any network call, and the message built from the server's field errors. */
module RegisterPage {
  import opened Wrappers
  import opened Text
  import opened ApiClient
  import opened AuthContext

  const PasswordsDiffer := "Passwords do not match"
  const RegistrationFailed := "Registration failed"
  const ProfileRoute := "/profile"

  const InitialForm: map<string, string> :=
    map["username" := "", "email" := "", "password" := "", "password_confirm" := ""]

  /** The error value `v` holds the message `m`. */
  predicate Carries(v: ErrorValue, m: string) {
    match v
    case Message(text) => text == m
    case Messages(texts) => m in texts
  }

  /** `Object.values(errors).flat()`: a single message stays one entry, a list contributes its messages. */
  function Flatten(values: seq<ErrorValue>): (r: seq<string>)
    ensures forall m :: m in r <==> exists v :: v in values && Carries(v, m)
  {
    if values == [] then []
    else
      var rest := Flatten(values[1..]);
      assert forall v :: v in values <==> v == values[0] || v in values[1..];
      var head := match values[0] case Message(m) => [m] case Messages(ms) => ms;
      assert forall m :: m in head <==> Carries(values[0], m);
      head + rest
  }

  /** The message shown when registration is rejected: the flattened messages joined by spaces, or the
      generic message when the error has no body or the joined text is empty. */
  function ErrorMessage(data: Option<seq<ErrorValue>>): (msg: string)
    ensures msg != ""
    ensures data.None? ==> msg == RegistrationFailed
  {
    if data.None? then RegistrationFailed
    else
      var joined := Join(Flatten(data.value), " ");
      if joined != "" then joined else RegistrationFailed
  }

  /** The generic message replaces the server's text exactly when the flattened messages are nothing but (at
      most) one empty string; otherwise every server message appears in what the user reads. */
  lemma ErrorMessageFallback(errors: seq<ErrorValue>)
    ensures var parts := Flatten(errors);
      ErrorMessage(Some(errors)) == (if |parts| == 0 || (|parts| == 1 && parts[0] == "") then RegistrationFailed
                                     else Join(parts, " "))
    ensures forall m :: m in Flatten(errors) ==> Contains(ErrorMessage(Some(errors)), m)
  {
    var parts := Flatten(errors);
    JoinEmpty(parts, " ");
    JoinContainsParts(parts, " ");
    forall m | m in parts ensures Contains(ErrorMessage(Some(errors)), m) {
      if ErrorMessage(Some(errors)) != Join(parts, " ") {
        assert m == "" && m <= ErrorMessage(Some(errors));
      }
    }
  }

  class RegisterPage {
    var form: map<string, string>
    var error: string
    var submitting: bool
    var route: Option<string>
    const auth: AuthProvider

    ghost predicate Valid()
      reads this, auth, auth.client
    {
      auth.Valid() && "password" in form && "password_confirm" in form
    }

    constructor (auth: AuthProvider)
      requires auth.Valid()
      ensures Valid() && this.auth == auth
      ensures form == InitialForm && error == "" && !submitting && route == None
    {
      this.auth := auth;
      form := InitialForm;
      error := "";
      submitting := false;
      route := None;
    }

    /** `handleChange`: the input named `name` now holds `value`; the other fields are unchanged. */
    method HandleChange(name: string, value: string)
      requires Valid()
      modifies this
      ensures Valid()
      ensures form == old(form)[name := value]
      ensures forall k :: k in old(form) && k != name ==> k in form && form[k] == old(form)[k]
      ensures error == old(error) && submitting == old(submitting) && route == old(route)
    {
      form := form[name := value];
    }

    /** `handleSubmit`: clear the error; when the passwords differ say so and stop before any call; otherwise
        register with the whole form, go to the profile on success and show the server's message on failure.
        `submitting` is false at the end of every path. */
    method HandleSubmit(first: Reply<AuthResponse>, refresh: RefreshReply, second: Reply<AuthResponse>)
      requires Valid()
      modifies this, auth, auth.client
      ensures Valid() && !submitting && form == old(form) && auth.isLoading == old(auth.isLoading)
      ensures old(form["password"] != form["password_confirm"]) ==>
        && error == PasswordsDiffer && route == old(route)
        && auth.client.calls == old(auth.client.calls) && auth.client.location == old(auth.client.location)
        && auth.user == old(auth.user) && auth.client.storage == old(auth.client.storage)
      ensures old(form["password"] == form["password_confirm"]) ==>
        var s := Settle(first, false, old(auth.client.Token(RefreshKey)), refresh);
        var result := Settled(s, first, second);
        && auth.client.calls == old(auth.client.calls) + SettledCalls("POST", RegisterEndpoint, old(form),
                                                                      Bearer(old(auth.client.Token(AccessKey))), s)
        && auth.client.location == SettledLocation(old(auth.client.location), s)
        && (result.Ok? ==>
              && error == "" && route == Some(ProfileRoute)
              && auth.user == Some(result.value.user)
              && auth.client.storage == SignedIn(SettledStorage(old(auth.client.storage), s), result.value))
        && (result.Err? ==>
              && error == ErrorMessage(result.error.data) && route == old(route)
              && auth.user == old(auth.user) && auth.client.storage == SettledStorage(old(auth.client.storage), s))
    {
      submitting := true;
      error := "";
      if form["password"] != form["password_confirm"] {
        error := PasswordsDiffer;
        submitting := false;
        return;
      }
      var r := auth.Register(form, first, refresh, second);
      match r {
        case Pass =>
          route := Some(ProfileRoute);
        case Fail(e) =>
          error := ErrorMessage(e.data);
      }
      submitting := false;
    }
  }
}
