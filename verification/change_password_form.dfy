/** The change-password form: an ordered validation chain, then one password update that
    carries only the new password. */
module ChangePasswordForm {
  import opened Common
  import Auth

  datatype Problem = CurrentRequired | TooShort | Mismatch | SameAsCurrent

  const MinPasswordLength := 8

  /** The toast a submit ends with. */
  datatype Notice = Invalid(problem: Problem) | Updated | UpdateFailed(description: string)

  const UpdateFailedFallback := "Gagal memperbarui password. Silakan coba lagi."

  /** The one request sent to the authentication service. */
  datatype UpdateRequest = UpdateRequest(password: string)

  /** `validateForm`: the first failing check, in the order current password present,
      new password length, confirmation, new differs from current. */
  function Validate(current: string, next: string, confirm: string): (r: Option<Problem>)
    ensures r.None? ==> Trim(current) != [] && |next| >= MinPasswordLength && next == confirm && next != current
  {
    if Trim(current) == [] then Some(CurrentRequired)
    else if |next| < MinPasswordLength then Some(TooShort)
    else if next != confirm then Some(Mismatch)
    else if current == next then Some(SameAsCurrent)
    else None
  }

  /** Each check fails exactly when every earlier one passed and its own condition fails;
      the form is valid exactly when all four pass. */
  lemma ValidationOrder(current: string, next: string, confirm: string)
    ensures var r := Validate(current, next, confirm);
            && (r == Some(CurrentRequired) <==> Blank(current))
            && (r == Some(TooShort) <==> !Blank(current) && |next| < MinPasswordLength)
            && (r == Some(Mismatch) <==> !Blank(current) && |next| >= MinPasswordLength && next != confirm)
            && (r == Some(SameAsCurrent) <==>
                  !Blank(current) && |next| >= MinPasswordLength && next == confirm && next == current)
            && (r.None? <==>
                  !Blank(current) && |next| >= MinPasswordLength && next == confirm && next != current)
  {
    BlankIffTrimEmpty(current);
  }

  /** The failure toast: the service's message when it has one, else a fixed text. */
  function FailureText(message: string): (t: string)
    ensures t != ""
    ensures message != "" ==> t == message
  {
    if message != "" then message else UpdateFailedFallback
  }

  /** A current password that is only whitespace is refused before anything is sent,
      even when the other two fields are fine. */
  lemma WhitespaceCurrentRefused(current: string, next: string)
    requires AllSpace(current)
    ensures Validate(current, next, next) == Some(CurrentRequired)
  {
    BlankIffAllSpace(current);
    ValidationOrder(current, next, next);
  }

  class Form {
    var currentPassword: string
    var newPassword: string
    var confirmPassword: string
    var isLoading: bool

    constructor ()
      ensures currentPassword == "" && newPassword == "" && confirmPassword == "" && !isLoading
    {
      currentPassword, newPassword, confirmPassword := "", "", "";
      isLoading := false;
    }

    /** `handleSubmit`: a failed check sends nothing and changes nothing; otherwise only
        the new password is sent (the current one is never verified), success clears all
        three fields and failure keeps them. */
    method HandleSubmit(update: Auth.AuthResult) returns (request: Option<UpdateRequest>, notice: Notice)
      modifies this
      ensures var v := Validate(old(currentPassword), old(newPassword), old(confirmPassword));
              && (v.Some? ==> request.None? && notice == Invalid(v.value) && isLoading == old(isLoading)
                              && currentPassword == old(currentPassword) && newPassword == old(newPassword)
                              && confirmPassword == old(confirmPassword))
              && (v.None? ==> request == Some(UpdateRequest(old(newPassword))) && !isLoading)
      ensures request.Some? && update.AuthOk? ==>
                notice == Updated && currentPassword == "" && newPassword == "" && confirmPassword == ""
      ensures request.Some? && update.AuthError? ==>
                notice == UpdateFailed(FailureText(update.message))
                && currentPassword == old(currentPassword) && newPassword == old(newPassword)
                && confirmPassword == old(confirmPassword)
    {
      var problem := Validate(currentPassword, newPassword, confirmPassword);
      if problem.Some? {
        return None, Invalid(problem.value);
      }
      request, notice := Update(update);
    }

    /** The update once the checks passed: only the new password is sent; success clears
        the three fields and failure keeps them. Loading always ends. */
    method Update(update: Auth.AuthResult) returns (request: Option<UpdateRequest>, notice: Notice)
      modifies this
      ensures request == Some(UpdateRequest(old(newPassword))) && !isLoading
      ensures update.AuthOk? ==>
                notice == Updated && currentPassword == "" && newPassword == "" && confirmPassword == ""
      ensures update.AuthError? ==>
                notice == UpdateFailed(FailureText(update.message))
                && currentPassword == old(currentPassword) && newPassword == old(newPassword)
                && confirmPassword == old(confirmPassword)
    {
      isLoading := true;
      request := Some(UpdateRequest(newPassword));
      match update {
        case AuthOk =>
          currentPassword, newPassword, confirmPassword := "", "", "";
          notice := Updated;
        case AuthError(message) =>
          notice := UpdateFailed(FailureText(message));
      }
      isLoading := false;
    }
  }
}
