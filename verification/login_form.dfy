/** The login form: a blank check, then `signIn` with the fields exactly as typed, and one
    message for every kind of failure. */
module LoginForm {
  import opened Common
  import Auth

  const FillAllFields := "Harap isi semua kolom yang tersedia."
  const InvalidCredentials := "Kredensial tidak valid. Silakan periksa kembali data Anda."

  /** The error the form shows once `signIn` has answered. */
  function ErrorAfter(outcome: Auth.Outcome): (e: string)
    ensures outcome.SignedIn? <==> e == ""
  {
    if outcome.SignedIn? then "" else InvalidCredentials
  }

  /** An identifier that matches no user and a known identifier with a wrong password end
      with the same message, so the form does not reveal which one happened. */
  lemma UnknownUserLooksLikeWrongPassword(handle: string, email: string, password: string,
                                          anyAuth: Auth.AuthResult, wrong: string)
    requires !Auth.IsEmailToken(handle)
    ensures var unknown := Auth.SignIn(handle, password, Auth.LookupRows([]), anyAuth);
            var mismatch := Auth.SignIn(handle, password, Auth.LookupRows([email]), Auth.AuthError(wrong));
            && unknown.outcome.Failed? && mismatch.outcome.Failed?
            && ErrorAfter(unknown.outcome) == ErrorAfter(mismatch.outcome)
  {
  }

  class Form {
    var loginField: string
    var password: string
    var error: string
    var isLoading: bool

    constructor ()
      ensures loginField == "" && password == "" && error == "" && !isLoading
    {
      loginField, password := "", "";
      error, isLoading := "", false;
    }

    /** `handleSubmit`: a field that is blank after trimming stops the submit with an
        error; otherwise `signIn` gets both fields untrimmed, success navigates to the
        dashboard and every failure shows the same message. Loading always ends. */
    method HandleSubmit(lookup: Auth.LookupResult, auth: Auth.AuthResult)
      returns (run: Option<Auth.SignInRun>, navigateTo: Option<string>)
      modifies this
      ensures Blank(old(loginField)) || Blank(old(password)) ==>
                run.None? && navigateTo.None? && error == FillAllFields
      ensures !Blank(old(loginField)) && !Blank(old(password)) ==>
                run == Some(Auth.SignIn(old(loginField), old(password), lookup, auth))
                && error == ErrorAfter(run.value.outcome)
                && (navigateTo.Some? <==> run.value.outcome.SignedIn?)
      ensures navigateTo.Some? ==> navigateTo.value == "/dashboard"
      ensures !isLoading && loginField == old(loginField) && password == old(password)
    {
      isLoading := true;
      error := "";
      if Blank(loginField) || Blank(password) {
        error := FillAllFields;
        isLoading := false;
        return None, None;
      }
      var r := Auth.SignIn(loginField, password, lookup, auth);
      run := Some(r);
      if r.outcome.SignedIn? {
        navigateTo := Some("/dashboard");
      } else {
        error := InvalidCredentials;
        navigateTo := None;
      }
      isLoading := false;
    }
  }
}
