/** The custom user model of backend/accounts/models.py: subscription plans and the derived display values. */
module AccountsModels {
  import opened Wrappers

  /** The subscription plans a user can hold. */
  datatype Plan = Basic | Standard | Premium {
    function Value(): (s: string)
      ensures 1 <= |s| <= 20
    {
      match this
      case Basic => "basic"
      case Standard => "standard"
      case Premium => "premium"
    }
  }

  /** A new user is on the basic plan with an active subscription. */
  const DefaultPlan: Plan := Basic
  const DefaultActiveSubscription := true

  /** Choice validation of the plan column. */
  function ParsePlan(s: string): (r: Option<Plan>)
    ensures r.Some? ==> r.value.Value() == s
  {
    if s == "basic" then Some(Basic)
    else if s == "standard" then Some(Standard)
    else if s == "premium" then Some(Premium)
    else None
  }

  lemma PlanRoundTrip(p: Plan)
    ensures ParsePlan(p.Value()) == Some(p)
    ensures ParsePlan(DefaultPlan.Value()) == Some(Basic)
  {
  }

  /** The fields the derived values read; `profilePicture` is nullable. */
  datatype User = User(
    username: string, email: string, firstName: string, lastName: string,
    profilePicture: Option<string>, plan: Plan, isActiveSubscription: bool)

  /** `User.__str__`: the email, or the username when the email is empty. */
  function Display(u: User): (r: string)
    ensures u.email != "" ==> r == u.email
    ensures u.email == "" ==> r == u.username
  {
    if u.email != "" then u.email else u.username
  }

  /** `User.full_name`: first and last name separated by a space when both are set, else the username. */
  function FullName(u: User): (r: string)
    ensures u.firstName != "" && u.lastName != "" ==> r == u.firstName + " " + u.lastName
    ensures u.firstName == "" || u.lastName == "" ==> r == u.username
  {
    if u.firstName != "" && u.lastName != "" then u.firstName + " " + u.lastName else u.username
  }

  const AvatarPrefix := "https://ui-avatars.com/api/?name="
  const AvatarSuffix := "&background=random"

  /** `get_profile_picture_url`: the stored picture when it is non-empty, else a generated avatar for the
      full name. */
  function ProfilePictureUrl(u: User): (r: string)
    ensures u.profilePicture.Some? && u.profilePicture.value != "" ==> r == u.profilePicture.value
    ensures u.profilePicture.None? || u.profilePicture.value == "" ==> r == AvatarPrefix + FullName(u) + AvatarSuffix
  {
    if u.profilePicture.Some? && u.profilePicture.value != "" then u.profilePicture.value
    else AvatarPrefix + FullName(u) + AvatarSuffix
  }

  /** The display string is empty only for a user with neither email nor username. */
  lemma DisplayEmpty(u: User)
    ensures Display(u) == "" <==> u.email == "" && u.username == ""
  {
  }

  /** With both names set, the full name splits back into them at the first `|firstName|` characters. */
  lemma {:induction false} FullNameSplits(u: User)
    requires u.firstName != "" && u.lastName != ""
    ensures var n := FullName(u);
      && n[..|u.firstName|] == u.firstName
      && n[|u.firstName|] == ' '
      && n[|u.firstName| + 1..] == u.lastName
      && |n| == |u.firstName| + |u.lastName| + 1
  {
    var n := FullName(u);
    assert n == u.firstName + " " + u.lastName;
    assert n[..|u.firstName|] == u.firstName;
    assert n[|u.firstName| + 1..] == u.lastName;
  }

  /** A generated avatar URL carries the full name between the fixed prefix and suffix, so the name can be
      read back from it; without a picture the URL is never empty. */
  lemma {:induction false} AvatarCarriesName(u: User)
    requires u.profilePicture.None? || u.profilePicture.value == ""
    ensures var url := ProfilePictureUrl(u);
      && url[..|AvatarPrefix|] == AvatarPrefix
      && url[|AvatarPrefix|..|url| - |AvatarSuffix|] == FullName(u)
      && url[|url| - |AvatarSuffix|..] == AvatarSuffix
  {
    var url := ProfilePictureUrl(u);
    var name := FullName(u);
    assert url == AvatarPrefix + name + AvatarSuffix;
    assert url[..|AvatarPrefix|] == AvatarPrefix;
    assert url[|AvatarPrefix|..|url| - |AvatarSuffix|] == name;
    assert url[|url| - |AvatarSuffix|..] == AvatarSuffix;
  }

  /** A user with a picture and one without are told apart: the picture wins whatever the names are. */
  lemma PictureIgnoresNames(u: User, first: string, last: string)
    requires u.profilePicture.Some? && u.profilePicture.value != ""
    ensures ProfilePictureUrl(u) == ProfilePictureUrl(u.(firstName := first, lastName := last))
  {
  }
}
