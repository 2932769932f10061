/** The root screen: a spinner while the session is checked, then a redirect chosen from the
    session flags and the user's profile fields. */
module IndexRoute {
  import opened Outcomes
  import opened AuthHook

  /** What `Index` renders. */
  datatype Screen = Spinner | Redirect(to: Route)

  /** A profile counts as set up when it has a name and an e-mail or a phone number. */
  predicate ProfileComplete(u: User) {
    u.name != "" && (Truthy(u.email) || Truthy(u.phone))
  }

  /** `Index` */
  function Index(isLoading: bool, isAuthenticated: bool, user: Option<User>): (s: Screen)
    ensures isLoading ==> s == Spinner
    ensures !isLoading && isAuthenticated && user.Some? && ProfileComplete(user.value) ==> s == Redirect(Tabs)
    ensures !isLoading && isAuthenticated && user.Some? && !ProfileComplete(user.value) ==> s == Redirect(ProfileSetup)
    ensures !isLoading && !(isAuthenticated && user.Some?) ==> s == Redirect(Onboarding)
  {
    if isLoading then Spinner
    else if isAuthenticated && user.Some? then
      if user.value.name != "" && (Truthy(user.value.email) || Truthy(user.value.phone)) then Redirect(Tabs)
      else Redirect(ProfileSetup)
    else Redirect(Onboarding)
  }

  /** The screen never redirects to sign-up, and it shows the spinner only while loading. */
  lemma IndexNeverSignup(isLoading: bool, isAuthenticated: bool, user: Option<User>)
    ensures Index(isLoading, isAuthenticated, user) != Redirect(Signup)
    ensures Index(isLoading, isAuthenticated, user) == Spinner <==> isLoading
  {
  }

  /** Right after a logout the root screen shows onboarding. */
  method IndexAfterLogout(auth: AuthProvider, response: Outcome<()>) returns (s: Screen)
    modifies auth`user, auth`isLoading, auth`isAuthenticated
    ensures s == Redirect(Onboarding)
  {
    var _ := auth.Logout(response);
    s := Index(auth.isLoading, auth.isAuthenticated, auth.user);
  }

  /** The root screen and the code verification disagree on a finished profile: the root screen
      asks for a name and an e-mail or phone, verification for a name and preferences. A user
      with a name and an e-mail but no preferences is sent on to the tabs by the root screen and
      back to profile setup by verification. */
  lemma RootAndVerifyDiffer()
    ensures var u := User(1, "Ann", Some("a@b.co"), None, None);
      Index(false, true, Some(u)) == Redirect(Tabs) && RouteAfterVerify(u) == ProfileSetup
  {
  }
}
