/** The welcome screen: a name field and a Get Started button that moves on to
    the login screen once something other than whitespace has been typed. */
module Welcome {
  import opened Common
  import opened Strings

  /** `!userName.trim()`: the Get Started button is disabled. */
  predicate GetStartedDisabled(userName: string) {
    IsBlank(userName)
  }

  /** `handleGetStarted`: the navigation it issues, if any. */
  function GetStarted(userName: string): Option<NavAction> {
    if !IsBlank(userName) then Some(Replace(Login)) else None
  }

  /** Get Started replaces the screen with the login screen exactly when the name
      has a character that is not whitespace, which is exactly when the button is
      enabled; the name itself is not passed on, so every such name leads to the
      same route. */
  lemma GetStartedNeedsAName(userName: string, other: string)
    ensures GetStarted(userName).Some? <==> exists i :: 0 <= i < |userName| && !IsWhitespace(userName[i])
    ensures GetStartedDisabled(userName) <==> GetStarted(userName).None?
    ensures GetStarted(userName).Some? && GetStarted(other).Some? ==> GetStarted(userName) == GetStarted(other)
    ensures GetStarted(userName).Some? ==> GetStarted(userName).value == Replace(Login)
  {
    BlankIffAllWhitespace(userName);
  }

  /** A name of only spaces, tabs or line breaks does not navigate. */
  lemma WhitespaceNameStays(userName: string)
    requires forall i :: 0 <= i < |userName| ==> userName[i] in {' ', '\t', '\n', '\r'}
    ensures GetStarted(userName).None?
  {
    BlankIffAllWhitespace(userName);
  }

  class WelcomeScreen {
    var userName: string

    constructor ()
      ensures userName == ""
    {
      userName := "";
    }

    method SetUserName(text: string)
      modifies this
      ensures userName == text
    {
      userName := text;
    }

    method HandleGetStarted() returns (nav: Option<NavAction>)
      ensures nav == GetStarted(userName)
    {
      if Trim(userName) != [] {
        nav := Some(Replace(Login));
      } else {
        nav := None;
      }
    }
  }
}
