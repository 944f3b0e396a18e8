/** The sign-up screen: email, password and confirmation fields, an eye button
    for each password field, and a Sign up button that moves on to the home screen
    when the fields are filled and the two passwords are identical. */
module SignUpScreen {
  import opened Common
  import opened Strings

  /** The user name the home screen receives, whatever email was entered. */
  const DefaultUserName := "User"

  /** `isFormValid`: three non-blank fields, and the password and its confirmation
      equal as typed (not trimmed). */
  predicate IsFormValid(email: string, password: string, confirmPassword: string) {
    !IsBlank(email) && !IsBlank(password) && !IsBlank(confirmPassword) && password == confirmPassword
  }

  /** `handleSignUp`: the navigation it issues, if any. It repeats the condition of
      `isFormValid` in its own `if`. */
  function HandleSignUp(email: string, password: string, confirmPassword: string): Option<NavAction> {
    if !IsBlank(email) && !IsBlank(password) && !IsBlank(confirmPassword) && password == confirmPassword
    then Some(Replace(HomeRoute(DefaultUserName)))
    else None
  }

  /** Sign-up navigates exactly when the form is valid, always to the home screen
      with the user name "User"; the confirmation's own blank check adds nothing to
      the equality check. */
  lemma SignUpNavigatesIffValid(email: string, password: string, confirmPassword: string)
    ensures HandleSignUp(email, password, confirmPassword).Some? <==> IsFormValid(email, password, confirmPassword)
    ensures IsFormValid(email, password, confirmPassword) <==>
      !IsBlank(email) && !IsBlank(password) && password == confirmPassword
    ensures HandleSignUp(email, password, confirmPassword).Some? ==>
      HandleSignUp(email, password, confirmPassword).value == Replace(HomeRoute(DefaultUserName)) &&
      DeclaredInRootStack(HandleSignUp(email, password, confirmPassword).value.route)
  {
  }

  /** The passwords are compared untrimmed: a password and the same password with
      trailing whitespace are a mismatch, although they trim to the same string. */
  lemma TrailingWhitespaceIsMismatch(email: string, password: string, padding: string)
    requires padding != [] && AllWhitespace(padding)
    ensures Trim(password + padding) == Trim(password)
    ensures !IsFormValid(email, password + padding, password)
  {
    TrimIgnoresTrailingPadding(password, padding);
    assert password + padding != password by {
      assert |password + padding| != |password|;
    }
  }

  /** An email of only whitespace blocks sign-up even when the passwords match. */
  lemma BlankEmailBlocks(email: string, password: string)
    requires AllWhitespace(email)
    ensures HandleSignUp(email, password, password).None?
  {
    BlankIffAllWhitespace(email);
  }

  class SignUpScreen {
    var email: string
    var password: string
    var confirmPassword: string
    var showPassword: bool
    var showConfirmPassword: bool

    constructor ()
      ensures email == "" && password == "" && confirmPassword == ""
      ensures !showPassword && !showConfirmPassword
    {
      email, password, confirmPassword := "", "", "";
      showPassword, showConfirmPassword := false, false;
    }

    /** The Sign up button is disabled. */
    function SignUpDisabled(): bool
      reads this
    {
      !IsFormValid(email, password, confirmPassword)
    }

    /** Typing in the email field replaces the email and nothing else. */
    method SetEmail(text: string)
      modifies this
      ensures email == text && password == old(password) && confirmPassword == old(confirmPassword)
      ensures showPassword == old(showPassword) && showConfirmPassword == old(showConfirmPassword)
    {
      email := text;
    }

    /** Typing in the password field replaces the password and nothing else. */
    method SetPassword(text: string)
      modifies this
      ensures password == text && email == old(email) && confirmPassword == old(confirmPassword)
      ensures showPassword == old(showPassword) && showConfirmPassword == old(showConfirmPassword)
    {
      password := text;
    }

    /** Typing in the confirmation field replaces the confirmation and nothing else. */
    method SetConfirmPassword(text: string)
      modifies this
      ensures confirmPassword == text && email == old(email) && password == old(password)
      ensures showPassword == old(showPassword) && showConfirmPassword == old(showConfirmPassword)
    {
      confirmPassword := text;
    }

    /** The first eye button flips only the password's visibility. */
    method TogglePassword()
      modifies this
      ensures showPassword == !old(showPassword) && showConfirmPassword == old(showConfirmPassword)
      ensures email == old(email) && password == old(password) && confirmPassword == old(confirmPassword)
    {
      showPassword := !showPassword;
    }

    /** The second eye button flips only the confirmation's visibility. */
    method ToggleConfirmPassword()
      modifies this
      ensures showConfirmPassword == !old(showConfirmPassword) && showPassword == old(showPassword)
      ensures email == old(email) && password == old(password) && confirmPassword == old(confirmPassword)
    {
      showConfirmPassword := !showConfirmPassword;
    }

    /** `handleSignUp` on the current fields. */
    method SignUp() returns (nav: Option<NavAction>)
      ensures nav == HandleSignUp(email, password, confirmPassword)
      ensures nav.Some? <==> !SignUpDisabled()
    {
      if Trim(email) != [] && Trim(password) != [] && Trim(confirmPassword) != [] && password == confirmPassword {
        nav := Some(Replace(HomeRoute(DefaultUserName)));
      } else {
        nav := None;
      }
    }

    /** The Login button. */
    method GoToLogin() returns (nav: NavAction)
      ensures nav == Navigate(Login)
    {
      nav := Navigate(Login);
    }
  }
}
