/** The login screen: an email and a password field, an eye button that shows or
    hides the password, and a Login button. There is no credential check: any pair
    of non-blank strings logs in. */
module LoginScreen {
  import opened Common
  import opened Strings

  /** The user name every login hands to the next route. */
  const DefaultUserName := "User"

  /** `isFormValid`: both fields are non-blank. */
  predicate IsFormValid(email: string, password: string) {
    !IsBlank(email) && !IsBlank(password)
  }

  /** `handleLogin`: the navigation it issues, if any. */
  function HandleLogin(email: string, password: string): Option<NavAction> {
    if !IsBlank(email) && !IsBlank(password) then Some(Replace(MainApp(DefaultUserName))) else None
  }

  /** Login replaces the screen exactly when the form is valid, that is when both
      fields hold a character that is not whitespace; what the user typed does not
      otherwise matter, and the Login button is disabled exactly when it would not
      navigate. */
  lemma LoginAcceptsAnyNonBlankPair(email: string, password: string)
    ensures HandleLogin(email, password).Some? <==> IsFormValid(email, password)
    ensures IsFormValid(email, password) <==>
      (exists i :: 0 <= i < |email| && !IsWhitespace(email[i])) &&
      (exists j :: 0 <= j < |password| && !IsWhitespace(password[j]))
    ensures HandleLogin(email, password).Some? ==>
      HandleLogin(email, password).value == Replace(MainApp(DefaultUserName))
  {
    BlankIffAllWhitespace(email);
    BlankIffAllWhitespace(password);
  }

  /** The login target is a route the root stack does not declare. */
  lemma LoginTargetUndeclared(email: string, password: string)
    requires HandleLogin(email, password).Some?
    ensures !DeclaredInRootStack(HandleLogin(email, password).value.route)
  {
  }

  class LoginScreen {
    var email: string
    var password: string
    var showPassword: bool

    constructor ()
      ensures email == "" && password == "" && !showPassword
    {
      email, password, showPassword := "", "", false;
    }

    /** The Login button is disabled. */
    function LoginDisabled(): bool
      reads this
    {
      !IsFormValid(email, password)
    }

    method SetEmail(text: string)
      modifies this
      ensures email == text && password == old(password) && showPassword == old(showPassword)
    {
      email := text;
    }

    method SetPassword(text: string)
      modifies this
      ensures password == text && email == old(email) && showPassword == old(showPassword)
    {
      password := text;
    }

    /** The eye button flips the password's visibility and nothing else. */
    method TogglePassword()
      modifies this
      ensures showPassword == !old(showPassword)
      ensures email == old(email) && password == old(password)
    {
      showPassword := !showPassword;
    }

    /** `handleLogin` on the current fields. */
    method Login() returns (nav: Option<NavAction>)
      ensures nav == HandleLogin(email, password)
      ensures nav.Some? <==> !LoginDisabled()
    {
      if Trim(email) != [] && Trim(password) != [] {
        nav := Some(Replace(MainApp(DefaultUserName)));
      } else {
        nav := None;
      }
    }

    /** The Sign up button. */
    method GoToSignUp() returns (nav: NavAction)
      ensures nav == Navigate(SignUp)
    {
      nav := Navigate(SignUp);
    }
  }
}
