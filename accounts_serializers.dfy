/** The account serializers of backend/accounts/serializers.py: password confirmation on registration and
    password change, the create step of registration, and the Google token field. */
module AccountsSerializers {
  import opened Wrappers
  import opened PyDict

  const Password := "password"
  const PasswordConfirm := "password_confirm"
  const NewPassword := "new_password"
  const NewPasswordConfirm := "new_password_confirm"
  const PasswordsDiffer := "Passwords don't match"
  const NewPasswordsDiffer := "New passwords don't match"

  /** The two fields hold the same value. */
  predicate Confirmed(attrs: map<string, Value>, field: string, confirm: string)
    requires field in attrs && confirm in attrs
  {
    attrs[field] == attrs[confirm]
  }

  /** `UserRegistrationSerializer.validate`: both password fields are required, so they are present here;
      a mismatch is an error and a match passes the attributes on unchanged. */
  function ValidateRegistration(attrs: map<string, Value>): (r: Result<map<string, Value>, string>)
    requires Password in attrs && PasswordConfirm in attrs
    ensures r.Ok? <==> Confirmed(attrs, Password, PasswordConfirm)
    ensures r.Ok? ==> r.value == attrs
    ensures r.Err? ==> r.error == PasswordsDiffer
  {
    if attrs[Password] != attrs[PasswordConfirm] then Err(PasswordsDiffer) else Ok(attrs)
  }

  /** `UserRegistrationSerializer.create`, up to the call into the user manager: the confirmation is popped
      (it must be there, the pop has no default). */
  method PrepareRegistration(data: Dict)
    requires PasswordConfirm in data.items
    modifies data
    ensures data.items == old(data.items) - {PasswordConfirm}
  {
    var _ := data.Pop(PasswordConfirm);
  }

  /** What reaches the user manager after a valid registration: the password once, no confirmation, and
      every other field as submitted. */
  lemma RegistrationPayload(attrs: map<string, Value>)
    requires Password in attrs && PasswordConfirm in attrs
    requires ValidateRegistration(attrs).Ok?
    ensures var payload := ValidateRegistration(attrs).value - {PasswordConfirm};
      && PasswordConfirm !in payload
      && payload[Password] == attrs[PasswordConfirm]
      && forall k :: k in attrs && k != PasswordConfirm ==> k in payload && payload[k] == attrs[k]
  {
  }

  /** `ChangePasswordSerializer.validate`. */
  function ValidatePasswordChange(attrs: map<string, Value>): (r: Result<map<string, Value>, string>)
    requires NewPassword in attrs && NewPasswordConfirm in attrs
    ensures r.Ok? <==> Confirmed(attrs, NewPassword, NewPasswordConfirm)
    ensures r.Ok? ==> r.value == attrs
    ensures r.Err? ==> r.error == NewPasswordsDiffer
  {
    if attrs[NewPassword] != attrs[NewPasswordConfirm] then Err(NewPasswordsDiffer) else Ok(attrs)
  }

  /** The two confirmations check the same rule on different fields, with different messages. */
  lemma ConfirmationsAgree(attrs: map<string, Value>)
    requires Password in attrs && PasswordConfirm in attrs
    requires NewPassword in attrs && NewPasswordConfirm in attrs
    requires attrs[Password] == attrs[NewPassword] && attrs[PasswordConfirm] == attrs[NewPasswordConfirm]
    ensures ValidateRegistration(attrs).Ok? == ValidatePasswordChange(attrs).Ok?
    ensures ValidateRegistration(attrs).Err? ==> ValidateRegistration(attrs).error != ValidatePasswordChange(attrs).error
  {
  }

  /** `GoogleOAuthSerializer.validate_access_token`: the token is accepted as given; checking it is left to
      the view. */
  function ValidateAccessToken(value: string): (r: Result<string, string>)
    ensures r.Ok? && r.value == value
  {
    Ok(value)
  }
}
