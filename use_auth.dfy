/** The authentication provider: the signed-in user, the two flags, and the e-mail or phone
    number waiting for its one-time code. Every call to the auth API is an outcome parameter;
    the stored access token is the `token` parameter of `CheckAuthStatus`, and the two
    `pending_*` storage keys are fields. Navigation is the `Route` an action returns. */
module AuthHook {
  import opened Outcomes

  /** The user fields the provider and the root screen look at. `preferences` is the stored
      preferences value, `None` when null or missing. */
  datatype User = User(id: int, name: string, email: Option<string>, phone: Option<string>,
                       preferences: Option<string>)

  /** Where `router.replace` sends the app. */
  datatype Route = Tabs | ProfileSetup | Signup | Onboarding

  /** The body of a successful login or registration. */
  datatype LoginResponse = LoginResponse(user: User, needsProfileSetup: bool)

  /** Where a verified one-time code leads: the tabs when the user has a name and preferences,
      otherwise profile setup. */
  function RouteAfterVerify(u: User): (r: Route)
    ensures r == Tabs <==> u.name != "" && Truthy(u.preferences)
    ensures r == Tabs || r == ProfileSetup
  {
    if u.name != "" && Truthy(u.preferences) then Tabs else ProfileSetup
  }

  class AuthProvider {
    var user: Option<User>
    var isLoading: bool
    var isAuthenticated: bool
    /** The `pending_email` and `pending_phone` storage entries. */
    var pendingEmail: Option<string>
    var pendingPhone: Option<string>

    /** Being authenticated means a user is held. */
    ghost predicate Valid()
      reads this
    {
      isAuthenticated ==> user.Some?
    }

    /** The initial state: no user, loading until the first check is done. */
    constructor ()
      ensures Valid() && user == None && isLoading && !isAuthenticated
      ensures pendingEmail == None && pendingPhone == None
    {
      user := None;
      isLoading := true;
      isAuthenticated := false;
      pendingEmail := None;
      pendingPhone := None;
    }

    /** `checkAuthStatus`: with a stored token the current user is fetched; a failed fetch
        removes the token (`removeToken`) and signs out. Without a token it signs out. */
    method CheckAuthStatus(token: Option<string>, me: Outcome<User>) returns (removeToken: bool)
      modifies this`user, this`isLoading, this`isAuthenticated
      ensures Valid() && !isLoading
      ensures Truthy(token) && me.Success? ==> user == Some(me.value) && isAuthenticated && !removeToken
      ensures Truthy(token) && me.Failure? ==> user == None && !isAuthenticated && removeToken
      ensures !Truthy(token) ==> user == None && !isAuthenticated && !removeToken
    {
      isLoading := true;
      removeToken := false;
      if Truthy(token) {
        match me {
          case Success(userData) =>
            user := Some(userData);
            isAuthenticated := true;
          case Failure(_) =>
            removeToken := true;
            user := None;
            isAuthenticated := false;
        }
      } else {
        user := None;
        isAuthenticated := false;
      }
      isLoading := false;
    }

    /** `login`: signs in and routes on `needs_profile_setup`; a failure leaves the session as
        it was and rethrows. */
    method Login(email: string, response: Outcome<LoginResponse>) returns (r: Result<Route>)
      requires Valid()
      modifies this`user, this`isLoading, this`isAuthenticated
      ensures Valid() && !isLoading
      ensures response.Success? ==>
        user == Some(response.value.user) && isAuthenticated &&
        r == Ok(if response.value.needsProfileSetup then ProfileSetup else Tabs)
      ensures response.Failure? ==>
        user == old(user) && isAuthenticated == old(isAuthenticated) && r == Thrown(response.message)
    {
      isLoading := true;
      match response {
        case Success(body) =>
          user := Some(body.user);
          isAuthenticated := true;
          if body.needsProfileSetup {
            r := Ok(ProfileSetup);
          } else {
            r := Ok(Tabs);
          }
        case Failure(message) =>
          r := Thrown(message);
      }
      isLoading := false;
    }

    /** `register`: signs in and goes to the tabs; a failure leaves the session and rethrows. */
    method Register(response: Outcome<LoginResponse>) returns (r: Result<Route>)
      requires Valid()
      modifies this`user, this`isLoading, this`isAuthenticated
      ensures Valid() && !isLoading
      ensures response.Success? ==> user == Some(response.value.user) && isAuthenticated && r == Ok(Tabs)
      ensures response.Failure? ==>
        user == old(user) && isAuthenticated == old(isAuthenticated) && r == Thrown(response.message)
    {
      isLoading := true;
      match response {
        case Success(body) =>
          user := Some(body.user);
          isAuthenticated := true;
          r := Ok(Tabs);
        case Failure(message) =>
          r := Thrown(message);
      }
      isLoading := false;
    }

    /** `sendOTP`: once the code is sent the e-mail is kept for verification; a failure
        rethrows. The loading flag is not touched. */
    method SendOTP(email: string, response: Outcome<()>) returns (r: Result<()>)
      modifies this`pendingEmail
      ensures response.Success? ==> pendingEmail == Some(email) && r == Ok(())
      ensures response.Failure? ==> pendingEmail == old(pendingEmail) && r == Thrown(response.message)
    {
      match response {
        case Success(_) =>
          pendingEmail := Some(email);
          r := Ok(());
        case Failure(message) =>
          r := Thrown(message);
      }
    }

    /** `sendMobileOTP`: the same for a phone number. */
    method SendMobileOTP(phone: string, response: Outcome<()>) returns (r: Result<()>)
      modifies this`pendingPhone
      ensures response.Success? ==> pendingPhone == Some(phone) && r == Ok(())
      ensures response.Failure? ==> pendingPhone == old(pendingPhone) && r == Thrown(response.message)
    {
      match response {
        case Success(_) =>
          pendingPhone := Some(phone);
          r := Ok(());
        case Failure(message) =>
          r := Thrown(message);
      }
    }

    /** `verifyOTP`: signs in, forgets the pending e-mail and routes by `RouteAfterVerify`; a
        failure leaves the session and the pending e-mail and rethrows. */
    method VerifyOTP(email: string, otp: string, response: Outcome<User>) returns (r: Result<Route>)
      requires Valid()
      modifies this`user, this`isLoading, this`isAuthenticated, this`pendingEmail
      ensures Valid() && !isLoading
      ensures response.Success? ==>
        user == Some(response.value) && isAuthenticated && pendingEmail == None &&
        r == Ok(RouteAfterVerify(response.value))
      ensures response.Failure? ==>
        user == old(user) && isAuthenticated == old(isAuthenticated) && pendingEmail == old(pendingEmail) &&
        r == Thrown(response.message)
    {
      isLoading := true;
      match response {
        case Success(u) =>
          user := Some(u);
          isAuthenticated := true;
          pendingEmail := None;
          if u.name != "" && Truthy(u.preferences) {
            r := Ok(Tabs);
          } else {
            r := Ok(ProfileSetup);
          }
        case Failure(message) =>
          r := Thrown(message);
      }
      isLoading := false;
    }

    /** `verifyMobileOTP`: the same for a phone number. */
    method VerifyMobileOTP(phone: string, otp: string, response: Outcome<User>) returns (r: Result<Route>)
      requires Valid()
      modifies this`user, this`isLoading, this`isAuthenticated, this`pendingPhone
      ensures Valid() && !isLoading
      ensures response.Success? ==>
        user == Some(response.value) && isAuthenticated && pendingPhone == None &&
        r == Ok(RouteAfterVerify(response.value))
      ensures response.Failure? ==>
        user == old(user) && isAuthenticated == old(isAuthenticated) && pendingPhone == old(pendingPhone) &&
        r == Thrown(response.message)
    {
      isLoading := true;
      match response {
        case Success(u) =>
          user := Some(u);
          isAuthenticated := true;
          pendingPhone := None;
          if u.name != "" && Truthy(u.preferences) {
            r := Ok(Tabs);
          } else {
            r := Ok(ProfileSetup);
          }
        case Failure(message) =>
          r := Thrown(message);
      }
      isLoading := false;
    }

    /** `logout`: signs out and goes to sign-up whether or not the call succeeds. */
    method Logout(response: Outcome<()>) returns (r: Route)
      modifies this`user, this`isLoading, this`isAuthenticated
      ensures Valid() && !isLoading
      ensures user == None && !isAuthenticated && r == Signup
    {
      isLoading := true;
      match response {
        case Success(_) =>
          user := None;
          isAuthenticated := false;
        case Failure(_) =>
          user := None;
          isAuthenticated := false;
      }
      r := Signup;
      isLoading := false;
    }

    /** `updateProfile`: holds the updated user; a failure leaves it and rethrows. The
        authenticated flag is not touched. */
    method UpdateProfile(response: Outcome<User>) returns (r: Result<()>)
      requires Valid()
      modifies this`user, this`isLoading
      ensures Valid() && !isLoading
      ensures response.Success? ==> user == Some(response.value) && r == Ok(())
      ensures response.Failure? ==> user == old(user) && r == Thrown(response.message)
    {
      isLoading := true;
      match response {
        case Success(updatedUser) =>
          user := Some(updatedUser);
          r := Ok(());
        case Failure(message) =>
          r := Thrown(message);
      }
      isLoading := false;
    }
  }
}
