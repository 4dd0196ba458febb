/** The forgot-password form: the e-mail pattern check, then one reset request, and the
    confirmation view with its "try again" button. */
module ForgotPasswordForm {
  import opened Common
  import Auth
  import EmailPattern

  /** The reset request: the address and the page the e-mailed link leads back to. */
  datatype ResetRequest = ResetRequest(email: string, redirectTo: string)

  /** The toast a submit ends with. */
  datatype Notice = InvalidEmail | ResetSent | ResetFailed

  function RedirectFor(origin: string): (r: string)
    ensures |r| >= |origin| && r[..|origin|] == origin && r[|origin|..] == "/change-password"
  {
    origin + "/change-password"
  }

  class Form {
    var email: string
    var isLoading: bool
    var isSubmitted: bool

    constructor ()
      ensures email == "" && !isLoading && !isSubmitted
    {
      email, isLoading, isSubmitted := "", false, false;
    }

    /** `handleSubmit`: an address the pattern refuses sends nothing; an accepted one
        sends exactly one reset request, and the form switches to its confirmation only
        when that request succeeded. Loading always ends. */
    method HandleSubmit(origin: string, reset: Auth.AuthResult) returns (request: Option<ResetRequest>, notice: Notice)
      modifies this
      ensures !EmailPattern.Accepts(old(email)) ==>
                request.None? && notice == InvalidEmail && isSubmitted == old(isSubmitted)
      ensures EmailPattern.Accepts(old(email)) ==>
                request == Some(ResetRequest(old(email), RedirectFor(origin)))
                && (reset.AuthOk? ==> isSubmitted && notice == ResetSent)
                && (reset.AuthError? ==> isSubmitted == old(isSubmitted) && notice == ResetFailed)
      ensures !isLoading && email == old(email)
    {
      isLoading := true;
      if !EmailPattern.Accepts(email) {
        isLoading := false;
        return None, InvalidEmail;
      }
      request := Some(ResetRequest(email, RedirectFor(origin)));
      if reset.AuthOk? {
        isSubmitted := true;
        notice := ResetSent;
      } else {
        notice := ResetFailed;
      }
      isLoading := false;
    }

    /** "Try again": back to the empty form. */
    method TryAgain()
      modifies this
      ensures !isSubmitted && email == "" && isLoading == old(isLoading)
    {
      isSubmitted := false;
      email := "";
    }
  }
}
