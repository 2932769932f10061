/** The e-mail login screen: the address pattern that guards the button and the submit handler,
    and the handler itself, which calls the login API directly and routes on its answer. */
module EmailPage {
  import opened Outcomes
  import opened Text
  import opened AuthHook

  /** `[^\s@]`: a character that is neither whitespace nor '@'. */
  predicate Plain(c: char) {
    !IsSpace(c) && c != '@'
  }

  /** `[^\s@]+` without the length bound. */
  predicate AllPlain(s: string) {
    forall i :: 0 <= i < |s| ==> Plain(s[i])
  }

  /** The domain part `[^\s@]+\.[^\s@]+`: plain characters with a '.' that has at least one
      character on each side. */
  predicate IsDomain(d: string) {
    AllPlain(d) && exists j :: 0 < j < |d| - 1 && d[j] == '.'
  }

  /** `/^[^\s@]+@[^\s@]+\.[^\s@]+$/.test(email)`: a non-empty plain local part, an '@', and a
      domain. The pattern is anchored at both ends and has no multi-line flag. */
  predicate IsEmailValid(email: string) {
    exists a :: 0 < a < |email| && email[a] == '@' && AllPlain(email[..a]) && IsDomain(email[a + 1..])
  }

  /** The address read as a shape: no whitespace anywhere, exactly one '@', not in front, and a
      '.' that is neither right after the '@' nor the last character. */
  predicate HasEmailShape(email: string) {
    (forall i :: 0 <= i < |email| ==> !IsSpace(email[i])) &&
    multiset(email)['@'] == 1 &&
    exists a, j :: (0 < a && a + 1 < j < |email| - 1 && email[a] == '@' && email[j] == '.')
  }

  /** A string without '@' counts none. */
  lemma NoAtCount(s: string)
    requires AllPlain(s)
    ensures multiset(s)['@'] == 0
  {
    assert '@' !in s;
  }

  /** Splitting a string at position `a` splits its '@' count. */
  lemma SplitCount(s: string, a: int)
    requires 0 <= a < |s|
    ensures multiset(s)['@'] == multiset(s[..a])['@'] + multiset([s[a]])['@'] + multiset(s[a + 1..])['@']
  {
    assert s == s[..a] + [s[a]] + s[a + 1..];
  }

  /** The pattern and the shape agree, in both directions. */
  lemma ValidIffShape(email: string)
    ensures IsEmailValid(email) <==> HasEmailShape(email)
  {
    if IsEmailValid(email) {
      var a :| 0 < a < |email| && email[a] == '@' && AllPlain(email[..a]) && IsDomain(email[a + 1..]);
      var d := email[a + 1..];
      var j :| 0 < j < |d| - 1 && d[j] == '.';
      forall i | 0 <= i < |email|
        ensures !IsSpace(email[i])
      {
        if i < a {
          assert email[i] == email[..a][i];
        } else if i > a {
          assert email[i] == d[i - a - 1];
        }
      }
      SplitCount(email, a);
      NoAtCount(email[..a]);
      NoAtCount(d);
      assert email[a + 1 + j] == '.';
    }
    if HasEmailShape(email) {
      var a, j :| 0 < a && a + 1 < j < |email| - 1 && email[a] == '@' && email[j] == '.';
      SplitCount(email, a);
      var l, d := email[..a], email[a + 1..];
      assert multiset(l)['@'] == 0 && multiset(d)['@'] == 0;
      forall i | 0 <= i < |l|
        ensures Plain(l[i])
      {
        assert l[i] == email[i];
        assert l[i] in multiset(l);
      }
      forall i | 0 <= i < |d|
        ensures Plain(d[i])
      {
        assert d[i] == email[a + 1 + i];
        assert d[i] in multiset(d);
      }
      assert d[j - a - 1] == '.';
      assert IsDomain(d);
    }
  }

  /** `disabled={!email || !isEmailValid(email) || loading}` */
  predicate ButtonDisabled(email: string, loading: bool) {
    email == "" || !IsEmailValid(email) || loading
  }

  /** The empty address fails the pattern, so the button is disabled exactly when the address
      fails it or a login is running; an enabled button always submits an address the handler
      accepts. */
  lemma ButtonMatchesGate(email: string, loading: bool)
    ensures !IsEmailValid("")
    ensures ButtonDisabled(email, loading) <==> !IsEmailValid(email) || loading
  {
  }

  /** `Alert.alert(title, message)` */
  datatype Alert = Alert(title: string, message: string)

  const ValidationTitle := "Validation Error"
  const ValidationMessage := "Please enter a valid email address."
  const ErrorTitle := "Error"

  /** The screen's state: the typed address and the loading flag. */
  class EmailScreen {
    var email: string
    var loading: bool

    /** The initial state: an empty address, not loading. */
    constructor ()
      ensures email == "" && !loading
    {
      email := "";
      loading := false;
    }

    /** `onChangeText={setEmail}` */
    method SetEmail(text: string)
      modifies this`email
      ensures email == text
    {
      email := text;
    }

    /** `handleNext`: an address that fails the pattern only raises the validation alert; no
        login call is made (`called` is false) and the flag is left as it was. Otherwise the
        login API answers `response`: on success the screen routes on `needs_profile_setup`, on
        failure it shows the error's message (the API layer only rejects with `Error` objects, so
        the fallback text for other values is not reached). The flag is false afterwards. */
    method HandleNext(response: Outcome<LoginResponse>) returns (called: bool, alert: Option<Alert>, route: Option<Route>)
      modifies this`loading
      ensures called <==> IsEmailValid(email)
      ensures !called ==>
        alert == Some(Alert(ValidationTitle, ValidationMessage)) && route == None && loading == old(loading)
      ensures called ==> !loading
      ensures called && response.Success? ==>
        alert == None && route == Some(if response.value.needsProfileSetup then ProfileSetup else Tabs)
      ensures called && response.Failure? ==> alert == Some(Alert(ErrorTitle, response.message)) && route == None
    {
      if !IsEmailValid(email) {
        return false, Some(Alert(ValidationTitle, ValidationMessage)), None;
      }
      called := true;
      loading := true;
      match response {
        case Success(body) =>
          alert := None;
          if body.needsProfileSetup {
            route := Some(ProfileSetup);
          } else {
            route := Some(Tabs);
          }
        case Failure(message) =>
          alert := Some(Alert(ErrorTitle, message));
          route := None;
      }
      loading := false;
    }
  }
}
